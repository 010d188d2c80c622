/** What holds in every reachable state of the pipeline, and along every run from one. */
module PipelineTheorems {
  import opened Events
  import opened Pipeline
  import opened PipelineSafety

  // ---------------------------------------------------------------- nothing is lost

  /** However the processes interleave and wherever they die, an item made by `create_item` has
      been deleted, or is projected, or its event is in an unpublished outbox row, in a message
      on the items queue, or in a report on the results queue - dead letters included. */
  lemma NoEventIsLost(s: State, item: ItemId)
    requires Reachable(s) && item in s.created
    ensures || item !in s.items
            || item in s.projection
            || (exists row ::
                  row in s.outbox && s.outbox[row].publishedAt.None? && NamesItem(Decoded(s.outbox[row].payload), item))
            || (exists id :: id in s.itemsQueue.messages && NamesItem(s.itemsQueue.messages[id].body, item))
            || (exists id :: id in s.resultsQueue.messages && ReportsItem(s.resultsQueue.messages[id].body, item))
  {
    hide ParseItemCreated, ParseItemProcessed;
    ReachableKeeps(s);
    assert Kept(s, item);
  }

  // ---------------------------------------------------------------- one receipt, one story

  /** Every report the results queue was ever given, and every projection, carries the time and
      the name of the item's one receipt. */
  lemma ReportsTellTheReceipt(s: State)
    requires Reachable(s)
    ensures forall id | id in s.resultsQueue.log && ParseItemProcessed(s.resultsQueue.log[id]).Ok? ::
              var r := ParseItemProcessed(s.resultsQueue.log[id]).value;
              r.item in s.receipts && s.receipts[r.item].at == r.at && s.receipts[r.item].worker == r.worker
    ensures forall i | i in s.projection ::
              i in s.receipts && s.projection[i].at == s.receipts[i].at && s.projection[i].worker == s.receipts[i].worker
  {
    hide ParseItemCreated, ParseItemProcessed;
    ReachableKeeps(s);
    assert forall id | id in s.resultsQueue.log :: ReportOk(s.receipts, s.resultsQueue.log[id]);
    assert forall i | i in s.projection :: AgreesWithReceipt(s.projection[i], s.receipts[i]);
  }

  /** The row read back after a conflict is always there. */
  lemma ConflictFindsTheReceipt(s: State, w: string)
    requires Reachable(s) && WorkerOf(s, w).step.Conflicted?
    ensures WorkEnabled(s, w, ReadReceipt)
  {
    hide ParseItemCreated;
    ReachableKeeps(s);
    MyWorkerOk(s, w);
  }

  // ---------------------------------------------------------------- what is written stays

  /** An item that is gone stays gone: no id is drawn twice. */
  lemma GoneStaysGone(s: State, e: Step, item: ItemId)
    requires Enabled(s, e) && item < s.nextItem && item !in s.items
    ensures item < Apply(s, e).nextItem && item !in Apply(s, e).items
  {
    hide ApiApply, RelayApply, WorkApply, ConsumeApply, QueueApply, RelayEnabled, WorkEnabled, ConsumeEnabled,
         QueueEnabled;
    match e
    case Api(api) => RequestsDrawNewIds(s, api, item);
    case _ => OnlyRequestsTouchItems(s, e);
  }

  lemma RequestsDrawNewIds(s: State, e: ApiStep, item: ItemId)
    requires item < s.nextItem && item !in s.items
    ensures item < ApiApply(s, e).nextItem && item !in ApiApply(s, e).items
  {
    hide ItemCreatedEvent, NameTaken;
  }

  lemma OnlyRequestsTouchItems(s: State, e: Step)
    requires Enabled(s, e) && !e.Api?
    ensures Apply(s, e).items == s.items && Apply(s, e).nextItem == s.nextItem && Apply(s, e).created == s.created
  {
    match e
    case Relaying(r, relayed) => RelayLeavesItems(s, r, relayed);
    case Items(_) =>
    case Working(w, worked) => WorkLeavesItems(s, w, worked);
    case Results(_) =>
    case Consuming(c, consumed) => ConsumeLeavesItems(s, c, consumed);
  }

  lemma RelayLeavesItems(s: State, r: nat, e: RelayStep)
    requires RelayEnabled(s, r, e)
    ensures RelayApply(s, r, e).items == s.items && RelayApply(s, r, e).nextItem == s.nextItem
    ensures RelayApply(s, r, e).created == s.created
    ensures RelayApply(s, r, e).projection == s.projection
  {
  }

  lemma WorkLeavesItems(s: State, w: string, e: WorkStep)
    requires WorkEnabled(s, w, e)
    ensures WorkApply(s, w, e).items == s.items && WorkApply(s, w, e).nextItem == s.nextItem
    ensures WorkApply(s, w, e).created == s.created
    ensures WorkApply(s, w, e).projection == s.projection
  {
  }

  lemma ConsumeLeavesItems(s: State, c: nat, e: ConsumeStep)
    requires ConsumeEnabled(s, c, e)
    ensures ConsumeApply(s, c, e).items == s.items && ConsumeApply(s, c, e).nextItem == s.nextItem
    ensures ConsumeApply(s, c, e).created == s.created
  {
  }

  lemma ProjectionStepFixed(s: State, e: Step, item: ItemId)
    requires Enabled(s, e) && item in s.projection
    ensures var t := Apply(s, e); item in t.items ==> item in t.projection && t.projection[item] == s.projection[item]
  {
    hide ApiApply, RelayApply, ConsumeApply, QueueApply, WorkApply, RelayEnabled, WorkEnabled, ConsumeEnabled,
         QueueEnabled;
    match e
    case Api(api) => RequestsLeaveProjections(s, api, item);
    case Relaying(r, relayed) => RelayLeavesItems(s, r, relayed);
    case Working(w, worked) => WorkLeavesItems(s, w, worked);
    case Consuming(c, consumed) => ConsumeKeepsProjection(s, c, consumed, item);
    case Items(_) =>
    case Results(_) =>
  }

  lemma RequestsLeaveProjections(s: State, e: ApiStep, item: ItemId)
    requires item in s.projection
    ensures var t := ApiApply(s, e); item in t.items ==> item in t.projection && t.projection[item] == s.projection[item]
  {
    hide NameTaken, ItemCreatedEvent;
  }

  lemma ConsumeKeepsProjection(s: State, c: nat, e: ConsumeStep, item: ItemId)
    requires ConsumeEnabled(s, c, e) && item in s.projection
    ensures var t := ConsumeApply(s, c, e); item in t.projection && t.projection[item] == s.projection[item]
  {
    hide Deliver, Deliveries, Remove, Parse;
  }

  /** First report wins: along any run, a projection once written is never changed while its item
      lives, and a receipt is never changed at all. */
  lemma {:induction false} FirstReportWins(s: State, steps: seq<Step>, end: State, item: ItemId)
    requires Inv(s) && Run(s, steps, end)
    ensures item in s.projection && item in end.items ==> item in end.projection && end.projection[item] == s.projection[item]
    ensures item in s.receipts ==> item in end.receipts && end.receipts[item] == s.receipts[item]
    decreases steps
  {
    hide Enabled, Apply, RelaysOk, WorkersOk, ConsumersOk, NothingLost;
    if steps == [] {
    } else {
      var next := Apply(s, steps[0]);
      StepKeeps(s, steps[0]);
      if item in s.projection { ProjectionStepFixed(s, steps[0], item); }
      FirstReportWins(next, steps[1..], end, item);
      if item in s.projection && item !in next.items {
        GoneStaysGoneRun(next, steps[1..], end, item);
      }
    }
  }

  lemma {:induction false} GoneStaysGoneRun(s: State, steps: seq<Step>, end: State, item: ItemId)
    requires Run(s, steps, end) && item < s.nextItem && item !in s.items
    ensures item !in end.items
    decreases steps
  {
    hide Enabled, Apply;
    if steps == [] {
    } else {
      GoneStaysGone(s, steps[0], item);
      GoneStaysGoneRun(Apply(s, steps[0]), steps[1..], end, item);
    }
  }

  // ---------------------------------------------------------------- poison

  predicate IsForeign(e: Step) {
    (e.Items? && e.onItems.Foreign?) || (e.Results? && e.onResults.Foreign?)
  }

  predicate NoPoison(s: State) {
    && (forall id | id in s.itemsQueue.log :: !IsItemPoison(s.itemsQueue.log[id]))
    && (forall id | id in s.resultsQueue.log :: !IsReportPoison(s.resultsQueue.log[id]))
  }

  /** Which steps touch a queue at all. */
  lemma QuietSteps(s: State, e: Step)
    requires Enabled(s, e)
    ensures e.Api? || e.Consuming? || e.Results? ==> Apply(s, e).itemsQueue == s.itemsQueue
    ensures e.Api? || e.Relaying? || e.Items? ==> Apply(s, e).resultsQueue == s.resultsQueue
  {
    hide ApiApply, RelayApply, ConsumeApply, QueueApply, WorkApply, RelayEnabled, WorkEnabled, ConsumeEnabled,
         QueueEnabled;
    match e
    case Api(api) => RequestsLeaveQueues(s, api);
    case Relaying(r, relayed) => RelayLeavesReports(s, r, relayed);
    case Consuming(c, consumed) => ConsumeLeavesMessages(s, c, consumed);
    case Items(_) =>
    case Working(_, _) =>
    case Results(_) =>
  }

  lemma RelayLeavesReports(s: State, r: nat, e: RelayStep)
    requires RelayEnabled(s, r, e)
    ensures RelayApply(s, r, e).resultsQueue == s.resultsQueue
  {
    hide Enqueue;
  }

  lemma ConsumeLeavesMessages(s: State, c: nat, e: ConsumeStep)
    requires ConsumeEnabled(s, c, e)
    ensures ConsumeApply(s, c, e).itemsQueue == s.itemsQueue
  {
    hide Deliver, Deliveries, Remove, RecordReport, Parse;
  }

  lemma RequestsLeaveQueues(s: State, e: ApiStep)
    ensures ApiApply(s, e).itemsQueue == s.itemsQueue && ApiApply(s, e).resultsQueue == s.resultsQueue
  {
    hide NameTaken, ItemCreatedEvent;
  }

  lemma RelayAddsNoPoison(s: State, r: nat, e: RelayStep)
    requires DataOk(s) && RelayEnabled(s, r, e)
    requires forall id | id in s.itemsQueue.log :: !IsItemPoison(s.itemsQueue.log[id])
    ensures var t := RelayApply(s, r, e); forall id | id in t.itemsQueue.log :: !IsItemPoison(t.itemsQueue.log[id])
  {
    hide IsItemPoison, Enqueue;
    if e.Send? {
      var body := Decoded(s.outbox[Current(s.relays[r])].payload);
      EnqueueKeeps(s.itemsQueue, body, e.sending);
      assert !IsItemPoison(body);
    }
  }

  lemma WorkAddsNoPoison(s: State, w: string, e: WorkStep)
    requires DataOk(s) && WorkersOk(s) && WorkEnabled(s, w, e)
    requires forall id | id in s.resultsQueue.log :: !IsReportPoison(s.resultsQueue.log[id])
    ensures WorkApply(s, w, e).itemsQueue.log == s.itemsQueue.log
    ensures var t := WorkApply(s, w, e); forall id | id in t.resultsQueue.log :: !IsReportPoison(t.resultsQueue.log[id])
  {
    hide IsReportPoison, Enqueue, ParseItemCreated, DataOk, WorkersOk, WorkerStepOk;
    MyWorkerOk(s, w);
    if e.SendReport? {
      assert QueueOk(s.resultsQueue) by { ResultsQueueOk(s); }
      PublishedParses(s, WorkerOf(s, w).step);
      EnqueueKeeps(s.resultsQueue, ReportBody(WorkerOf(s, w).step), e.report);
    }
  }

  lemma ResultsQueueOk(s: State)
    requires DataOk(s)
    ensures QueueOk(s.resultsQueue)
  {
  }

  lemma MovesLeaveLogs(q: Queue, e: QueueStep)
    requires !e.Foreign?
    ensures QueueApply(q, e).log == q.log
  {
  }

  lemma ConsumeLeavesLogs(s: State, c: nat, e: ConsumeStep)
    requires ConsumeEnabled(s, c, e)
    ensures ConsumeApply(s, c, e).resultsQueue.log == s.resultsQueue.log
  {
    hide Deliveries, RecordReport, Parse;
  }

  lemma NoNewPoison(s: State, e: Step)
    requires Inv(s) && NoPoison(s) && Enabled(s, e) && !IsForeign(e)
    ensures NoPoison(Apply(s, e))
  {
    hide IsItemPoison, IsReportPoison, DataOk, RelaysOk, WorkersOk, ConsumersOk, NothingLost, ApiApply, RelayApply,
         WorkApply,
         ConsumeApply, RelayEnabled, WorkEnabled, ConsumeEnabled, QueueApply;
    QuietSteps(s, e);
    match e
    case Relaying(r, relayed) => RelayAddsNoPoison(s, r, relayed);
    case Working(w, worked) => WorkAddsNoPoison(s, w, worked);
    case Consuming(c, consumed) => ConsumeLeavesLogs(s, c, consumed);
    case Items(onItems) => MovesLeaveLogs(s.itemsQueue, onItems);
    case Results(onResults) => MovesLeaveLogs(s.resultsQueue, onResults);
    case Api(_) =>
  }

  lemma PublishedParses(s: State, step: WorkerStep)
    requires DataOk(s) && WorkerStepOk(s, step) && step.Receipted?
    ensures !IsReportPoison(ReportBody(step))
  {
    hide ParseItemCreated, ParseItemProcessed;
    ProcessedRoundTrip(step.item, step.at, step.worker, step.request);
  }

  /** What this system puts on its own queues always parses: with no foreign sender, neither the
      worker nor the api ever meets poison. */
  lemma {:induction false} BuiltMessagesParse(s: State, steps: seq<Step>, end: State)
    requires Inv(s) && NoPoison(s) && Run(s, steps, end) && forall e | e in steps :: !IsForeign(e)
    ensures NoPoison(end)
    decreases steps
  {
    hide Enabled, Apply, Inv, NoPoison, IsForeign;
    if steps == [] {
    } else {
      StepKeeps(s, steps[0]);
      NoNewPoison(s, steps[0]);
      BuiltMessagesParse(Apply(s, steps[0]), steps[1..], end);
    }
  }

  lemma PoisonStepStays(s: State, e: Step, id: MessageId)
    requires Inv(s) && Enabled(s, e) && id in s.itemsQueue.messages && IsItemPoison(s.itemsQueue.messages[id].body)
    ensures var q := Apply(s, e).itemsQueue; id in q.messages && q.messages[id].body == s.itemsQueue.messages[id].body
  {
    hide ParseItemCreated, RelaysOk, WorkersOk, ConsumersOk, NothingLost, ApiApply, RelayApply, WorkApply,
         ConsumeApply, QueueApply,
         RelayEnabled, WorkEnabled, ConsumeEnabled, QueueEnabled, ReportsOk, OutboxOk;
    QuietSteps(s, e);
    match e
    case Relaying(r, relayed) => RelayKeepsMessages(s, r, relayed);
    case Items(onItems) => QueueStepKeeps(s.itemsQueue, IsItemPoison, onItems);
    case Working(w, worked) => WorkKeepsPoison(s, w, worked, id);
    case Api(_) =>
    case Results(_) =>
    case Consuming(_, _) =>
  }

  lemma RelayKeepsMessages(s: State, r: nat, e: RelayStep)
    requires DataOk(s) && RelayEnabled(s, r, e)
    ensures Carried(s.itemsQueue, RelayApply(s, r, e).itemsQueue)
  {
    hide Enqueue;
    if e.Send? { EnqueueKeeps(s.itemsQueue, Decoded(s.outbox[Current(s.relays[r])].payload), e.sending); }
  }

  lemma WorkKeepsPoison(s: State, w: string, e: WorkStep, id: MessageId)
    requires DataOk(s) && WorkersOk(s) && WorkEnabled(s, w, e)
    requires id in s.itemsQueue.messages && IsItemPoison(s.itemsQueue.messages[id].body)
    ensures var q := WorkApply(s, w, e).itemsQueue; id in q.messages && q.messages[id].body == s.itemsQueue.messages[id].body
  {
    hide ParseItemCreated, Enqueue, Remove, Deliver, WorkersOk, OutboxOk, EventsOk, ReportsOk;
    MyWorkerOk(s, w);
    if e.Receive? { DeliverKeeps(s.itemsQueue, e.ids); }
    if e.DeleteMessage? {
      RemoveKeeps(s.itemsQueue, WorkerOf(s, w).step.message);
      assert s.itemsQueue.messages[id].body == s.itemsQueue.log[id];
    }
  }

  lemma PoisonReportStepStays(s: State, e: Step, id: MessageId)
    requires Inv(s) && Enabled(s, e) && id in s.resultsQueue.messages
    requires IsReportPoison(s.resultsQueue.messages[id].body)
    ensures var q := Apply(s, e).resultsQueue; id in q.messages && q.messages[id].body == s.resultsQueue.messages[id].body
  {
    hide ParseItemProcessed, RelaysOk, WorkersOk, ConsumersOk, NothingLost, ApiApply, RelayApply, WorkApply,
         ConsumeApply, QueueApply,
         RelayEnabled, WorkEnabled, ConsumeEnabled, QueueEnabled, ReportsOk, OutboxOk;
    QuietSteps(s, e);
    match e
    case Results(onResults) => QueueStepKeeps(s.resultsQueue, IsReportPoison, onResults);
    case Working(w, worked) => WorkKeepsReports(s, w, worked);
    case Consuming(c, consumed) => ConsumeKeepsPoison(s, c, consumed, id);
    case Relaying(_, _) =>
    case Api(_) =>
    case Items(_) =>
  }

  lemma WorkKeepsReports(s: State, w: string, e: WorkStep)
    requires DataOk(s) && WorkEnabled(s, w, e)
    ensures Carried(s.resultsQueue, WorkApply(s, w, e).resultsQueue)
  {
    hide Enqueue, ParseItemCreated;
    if e.SendReport? { EnqueueKeeps(s.resultsQueue, ReportBody(WorkerOf(s, w).step), e.report); }
  }

  lemma ConsumeKeepsPoison(s: State, c: nat, e: ConsumeStep, id: MessageId)
    requires DataOk(s) && ConsumersOk(s) && ConsumeEnabled(s, c, e)
    requires id in s.resultsQueue.messages && IsReportPoison(s.resultsQueue.messages[id].body)
    ensures var q := ConsumeApply(s, c, e).resultsQueue; id in q.messages && q.messages[id].body == s.resultsQueue.messages[id].body
  {
    hide ParseItemProcessed, Remove, Deliver, ConsumersOk, OutboxOk, EventsOk, ReportsOk, RecordReport;
    MyConsumerOk(s, c);
    if e.Fetch? { DeliverKeeps(s.resultsQueue, e.ids); }
    if e.DeleteReport? {
      RemoveKeeps(s.resultsQueue, ConsumerOf(s, c).step.message);
      assert s.resultsQueue.messages[id].body == s.resultsQueue.log[id];
    }
  }

  /** Poison is never deleted, on either queue: it can only be set aside for the dead letters. */
  lemma {:induction false} PoisonIsNeverDeleted(s: State, steps: seq<Step>, end: State, id: MessageId)
    requires Inv(s) && Run(s, steps, end)
    ensures id in s.itemsQueue.messages && IsItemPoison(s.itemsQueue.messages[id].body) ==> id in end.itemsQueue.messages
    ensures id in s.resultsQueue.messages && IsReportPoison(s.resultsQueue.messages[id].body) ==> id in end.resultsQueue.messages
    decreases steps
  {
    hide Enabled, Apply, Inv, ParseItemCreated, ParseItemProcessed;
    if steps == [] {
    } else {
      StepKeeps(s, steps[0]);
      if id in s.itemsQueue.messages && IsItemPoison(s.itemsQueue.messages[id].body) {
        PoisonStepStays(s, steps[0], id);
      }
      if id in s.resultsQueue.messages && IsReportPoison(s.resultsQueue.messages[id].body) {
        PoisonReportStepStays(s, steps[0], id);
      }
      PoisonIsNeverDeleted(Apply(s, steps[0]), steps[1..], end, id);
    }
  }

  // ---------------------------------------------------------------- how often a row is sent

  /** Some relay has sent this row and holds the mark in its open transaction. */
  ghost predicate Committing(s: State, row: RowId) {
    exists r :: r in s.relays && Marked(s.relays[r], row)
  }

  ghost function Spent(s: State, row: RowId): nat {
    if (row in s.outbox && s.outbox[row].publishedAt.Some?) || Committing(s, row) then 1 else 0
  }

  predicate SendsRow(s: State, e: Step, row: RowId) {
    e.Relaying? && e.relayed.Send? && CanSend(s, e.relay) && Current(s.relays[e.relay]) == row
  }

  /** The copies of a row's event one step puts on the queue. */
  function Copies(s: State, e: Step, row: RowId): int {
    if SendsRow(s, e, row) then |e.relayed.sending.copies| else 0
  }

  /** Copies nobody will remember: all of a send that raised, the spare ones of a send that
      returned, and the one that counted when its pass dies before the commit. */
  function Forgotten(s: State, e: Step, row: RowId): int {
    if SendsRow(s, e, row) then
      (if e.relayed.sending.returned then |e.relayed.sending.copies| - 1 else |e.relayed.sending.copies|)
    else if e.Relaying? && e.relayed.Abort? && e.relay in s.relays && Marked(s.relays[e.relay], row) then 1
    else 0
  }

  lemma SpentBalance(s: State, e: Step, row: RowId)
    requires Inv(s) && Enabled(s, e)
    ensures Spent(s, row) + Copies(s, e, row) == Spent(Apply(s, e), row) + Forgotten(s, e, row)
  {
    hide ParseItemCreated, ParseItemProcessed, WorkersOk, ConsumersOk, NothingLost, ItemCreatedEvent, NameTaken,
         MarksOk, Inv;
    match e
    case Relaying(r, relayed) =>
      assert RelaysOk(s) && DataOk(s) by { InvParts(s); }
      RelayBalance(s, r, relayed, row);
    case Api(api) =>
      assert RelaysOk(s) && DataOk(s) by { InvParts(s); }
      RequestsLeaveRows(s, api, row);
    case Working(w, worked) => WorkLeavesRows(s, w, worked);
    case Consuming(c, consumed) => ConsumeLeavesRows(s, c, consumed);
    case Items(_) =>
    case Results(_) =>
  }

  lemma InvParts(s: State)
    requires Inv(s)
    ensures RelaysOk(s) && DataOk(s)
  {
  }

  lemma WorkLeavesRows(s: State, w: string, e: WorkStep)
    requires WorkEnabled(s, w, e)
    ensures WorkApply(s, w, e).outbox == s.outbox && WorkApply(s, w, e).relays == s.relays
  {
  }

  lemma ConsumeLeavesRows(s: State, c: nat, e: ConsumeStep)
    requires ConsumeEnabled(s, c, e)
    ensures ConsumeApply(s, c, e).outbox == s.outbox && ConsumeApply(s, c, e).relays == s.relays
  {
  }

  lemma RequestsLeaveRows(s: State, e: ApiStep, row: RowId)
    requires DataOk(s)
    ensures Spent(ApiApply(s, e), row) == Spent(s, row)
  {
    hide ItemCreatedEvent, NameTaken, ParseItemCreated, ParseItemProcessed;
    assert ApiApply(s, e).relays == s.relays;
  }

  lemma RelayBalance(s: State, r: nat, e: RelayStep, row: RowId)
    requires RelaysOk(s) && RelayEnabled(s, r, e)
    ensures Spent(s, row) + Copies(s, Relaying(r, e), row) ==
            Spent(RelayApply(s, r, e), row) + Forgotten(s, Relaying(r, e), row)
  {
    hide MarksOk, Enqueue;
    match e
    case Select(rows) =>
      assert Committing(RelayApply(s, r, e), row) <==> Committing(s, row) by { SelectMarksNothing(s, r, rows, row); }
    case Send(sending, now) => SendBalance(s, r, sending, now, row);
    case Commit => CommitBalance(s, r, row);
    case Abort => AbortBalance(s, r, row);
  }

  lemma SelectMarksNothing(s: State, r: nat, rows: seq<RowId>, row: RowId)
    requires r !in s.relays
    ensures Committing(s.(relays := s.relays[r := Pass(rows, 0, map[])]), row) <==> Committing(s, row)
  {
    var t := s.(relays := s.relays[r := Pass(rows, 0, map[])]);
    if Committing(s, row) {
      var x :| x in s.relays && Marked(s.relays[x], row);
      assert x in t.relays && Marked(t.relays[x], row);
    }
  }

  /** Nobody else has marked a row of this pass. */
  lemma MarkedOnce(s: State, r: nat, row: RowId)
    requires RelaysOk(s) && r in s.relays && row in s.relays[r].rows
    ensures row in s.outbox && s.outbox[row].publishedAt.None?
    ensures forall x | x in s.relays && Marked(s.relays[x], row) :: x == r
  {
    hide MarksOk;
    assert PassOk(s.outbox, s.relays[r]);
    forall x | x in s.relays && Marked(s.relays[x], row)
      ensures x == r
    {
      assert PassOk(s.outbox, s.relays[x]);
      assert x != r ==> Disjoint(s.relays[r], s.relays[x]);
    }
  }

  lemma SendBalance(s: State, r: nat, sending: Sending, now: int, row: RowId)
    requires RelaysOk(s) && CanSend(s, r)
    ensures var e := Relaying(r, Send(sending, now));
            Spent(s, row) + Copies(s, e, row) == Spent(SendRow(s, r, sending, now), row) + Forgotten(s, e, row)
  {
    hide MarksOk, Enqueue, PassesOk;
    var t := SendRow(s, r, sending, now);
    var p := s.relays[r];
    PassIsOk(s, r);
    MarkedOnce(s, r, Current(p));
    SendMarks(s, r, sending, now, row);
  }

  lemma SendMarks(s: State, r: nat, sending: Sending, now: int, row: RowId)
    requires CanSend(s, r) && PassOk(s.outbox, s.relays[r])
    requires forall x | x in s.relays && Marked(s.relays[x], Current(s.relays[r])) :: x == r
    ensures row == Current(s.relays[r]) ==>
            !Committing(s, row) && (Committing(SendRow(s, r, sending, now), row) <==> sending.returned)
    ensures row != Current(s.relays[r]) ==> (Committing(SendRow(s, r, sending, now), row) <==> Committing(s, row))
  {
    hide Enqueue;
    var t := SendRow(s, r, sending, now);
    var p := s.relays[r];
    if row == Current(p) {
      assert row !in p.rows[..p.tried];
      if sending.returned { assert r in t.relays && Marked(t.relays[r], row); }
    } else {
      assert Marked(t.relays[r], row) == Marked(p, row);
      if Committing(s, row) {
        var x :| x in s.relays && Marked(s.relays[x], row);
        assert x in t.relays && Marked(t.relays[x], row);
      }
    }
  }

  lemma CommitBalance(s: State, r: nat, row: RowId)
    requires RelaysOk(s) && r in s.relays
    ensures Spent(CommitPass(s, r), row) == Spent(s, row)
  {
    hide MarksOk;
    var t := CommitPass(s, r);
    var p := s.relays[r];
    assert PassOk(s.outbox, p);
    if Marked(p, row) {
      assert t.outbox[row].publishedAt.Some?;
    } else {
      assert Committing(t, row) == Committing(s, row) by { OthersStillMark(s, t, r, row); }
      if row in p.rows { MarkedOnce(s, r, row); }
    }
  }

  lemma OthersStillMark(s: State, t: State, r: nat, row: RowId)
    requires r in s.relays && t.relays == s.relays - {r} && !Marked(s.relays[r], row)
    ensures Committing(t, row) == Committing(s, row)
  {
    if Committing(s, row) {
      var x :| x in s.relays && Marked(s.relays[x], row);
      assert x in t.relays && Marked(t.relays[x], row);
    }
  }

  lemma AbortBalance(s: State, r: nat, row: RowId)
    requires RelaysOk(s) && r in s.relays
    ensures Spent(s, row) == Spent(AbortPass(s, r), row) + if Marked(s.relays[r], row) then 1 else 0
  {
    hide MarksOk;
    assert PassOk(s.outbox, s.relays[r]);
    if Marked(s.relays[r], row) {
      MarkedOnce(s, r, row);
      assert Committing(s, row);
    } else {
      OthersStillMark(s, AbortPass(s, r), r, row);
    }
  }

  function TotalCopies(s: State, steps: seq<Step>, row: RowId): int
    decreases steps
  {
    if steps == [] || !Enabled(s, steps[0]) then 0
    else Copies(s, steps[0], row) + TotalCopies(Apply(s, steps[0]), steps[1..], row)
  }

  function TotalForgotten(s: State, steps: seq<Step>, row: RowId): int
    decreases steps
  {
    if steps == [] || !Enabled(s, steps[0]) then 0
    else Forgotten(s, steps[0], row) + TotalForgotten(Apply(s, steps[0]), steps[1..], row)
  }

  /** A row's event is queued once, plus once for every copy nobody remembered. */
  lemma {:induction false} SentOncePlusForgotten(s: State, steps: seq<Step>, end: State, row: RowId)
    requires Inv(s) && Run(s, steps, end)
    ensures Spent(s, row) + TotalCopies(s, steps, row) == Spent(end, row) + TotalForgotten(s, steps, row)
    decreases steps
  {
    hide Enabled, Apply, Inv, Spent, Copies, Forgotten;
    if steps == [] {
    } else {
      StepKeeps(s, steps[0]);
      SpentBalance(s, steps[0], row);
      SentOncePlusForgotten(Apply(s, steps[0]), steps[1..], end, row);
    }
  }

  /** From the start: a published row was queued exactly once more than the copies forgotten. */
  lemma PublishedRowWasSent(steps: seq<Step>, end: State, row: RowId)
    requires Run(START, steps, end) && row in end.outbox && end.outbox[row].publishedAt.Some?
    ensures TotalCopies(START, steps, row) == 1 + TotalForgotten(START, steps, row)
  {
    SentOncePlusForgotten(START, steps, end, row);
  }
}
