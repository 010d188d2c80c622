/** The pipeline drains: a measure of the work left, what every step does to it, and a run to
    zero from every reachable state. */
module PipelineDrain {
  import opened Options
  import opened Events
  import opened Pipeline
  import opened PipelineSafety
  import opened PipelineTheorems

  // ---------------------------------------------------------------- the measure

  function UnpublishedRows(outbox: map<RowId, Row>): set<RowId> {
    set row | row in outbox && outbox[row].publishedAt.None?
  }

  /** Three for an event not yet sent, two for a message not yet handled, one for a report. */
  function WorkLeft(s: State): nat {
    3 * |UnpublishedRows(s.outbox)| + 2 * |s.itemsQueue.messages| + |s.resultsQueue.messages|
  }

  function MarkedRows(p: Pass): set<RowId> {
    set row | row in p.changed && p.changed[row].publishedAt.Some?
  }

  predicate Removable(q: Queue, id: MessageId) {
    id in q.messages && q.messages[id].place != Dead
  }

  /** What one step adds to the work left: a row marked takes three, a message handled two, a
      report handled one; only a new event, or a copy put on a queue, adds any. */
  function Added(s: State, e: Step): int
    requires Enabled(s, e)
  {
    match e
    case Api(Create(name, _, _)) => if NameTaken(s, name) then 0 else 3
    case Relaying(_, Send(sending, _)) => 2 * |sending.copies|
    case Relaying(r, Commit) => -3 * |MarkedRows(s.relays[r])|
    case Items(Foreign(_, _)) => 2
    case Results(Foreign(_, _)) => 1
    case Working(_, SendReport(report)) => |report.copies|
    case Working(w, DeleteMessage) => if Removable(s.itemsQueue, WorkerOf(s, w).step.message) then -2 else 0
    case Consuming(c, DeleteReport) => if Removable(s.resultsQueue, ConsumerOf(s, c).step.message) then -1 else 0
    case _ => 0
  }

  // ---------------------------------------------------------------- sizes

  function Elements(ids: seq<MessageId>): set<MessageId> {
    set id | id in ids
  }

  lemma {:induction false} DistinctSize(ids: seq<MessageId>)
    requires forall j, k | 0 <= j < k < |ids| :: ids[j] != ids[k]
    ensures |Elements(ids)| == |ids|
  {
    if ids == [] {
    } else {
      var last := |ids| - 1;
      DistinctSize(ids[..last]);
      assert ids[last] !in ids[..last];
      assert Elements(ids) == Elements(ids[..last]) + {ids[last]};
    }
  }

  lemma DisjointSize(a: set<MessageId>, b: set<MessageId>)
    requires a !! b
    ensures |a + b| == |a| + |b|
  {
  }

  lemma EnqueueSize(q: Queue, body: Body, sending: Sending)
    requires QueueOk(q) && IsSending(q, sending)
    ensures |Enqueue(q, body, sending.copies).messages| == |q.messages| + |sending.copies|
  {
    var r := Enqueue(q, body, sending.copies);
    assert r.messages.Keys == q.messages.Keys + Elements(sending.copies);
    DistinctSize(sending.copies);
    DisjointSize(q.messages.Keys, Elements(sending.copies));
    assert |r.messages| == |r.messages.Keys| && |q.messages| == |q.messages.Keys|;
  }

  lemma DeliverSize(q: Queue, ids: seq<MessageId>)
    ensures |Deliver(q, ids).messages| == |q.messages|
  {
    assert Deliver(q, ids).messages.Keys == q.messages.Keys;
    assert |Deliver(q, ids).messages.Keys| == |q.messages.Keys|;
  }

  lemma RemoveSize(q: Queue, id: MessageId)
    ensures |Remove(q, id).messages| == |q.messages| - if Removable(q, id) then 1 else 0
  {
    if Removable(q, id) {
      assert Remove(q, id).messages.Keys == q.messages.Keys - {id};
      assert |Remove(q, id).messages.Keys| == |q.messages.Keys| - 1;
    }
  }

  lemma MoveSize(q: Queue, id: MessageId, place: Place)
    ensures |Move(q, id, place).messages| == |q.messages|
  {
    assert Move(q, id, place).messages.Keys == q.messages.Keys;
    assert |Move(q, id, place).messages.Keys| == |q.messages.Keys|;
  }

  lemma CommitRows(outbox: map<RowId, Row>, p: Pass)
    requires PassOk(outbox, p)
    ensures MarkedRows(p) <= UnpublishedRows(outbox)
    ensures UnpublishedRows(outbox + p.changed) == UnpublishedRows(outbox) - MarkedRows(p)
  {
    forall row | row in p.changed ensures row in outbox && outbox[row].publishedAt.None? {
      assert row in p.rows;
    }
  }

  lemma CommitSize(s: State, r: nat)
    requires r in s.relays && PassOk(s.outbox, s.relays[r])
    ensures |UnpublishedRows(CommitPass(s, r).outbox)| == |UnpublishedRows(s.outbox)| - |MarkedRows(s.relays[r])|
  {
    hide UnpublishedRows, MarkedRows, PassOk;
    CommitRows(s.outbox, s.relays[r]);
  }

  lemma NewRowSize(outbox: map<RowId, Row>, id: RowId, row: Row)
    requires id !in outbox && row.publishedAt.None?
    ensures |UnpublishedRows(outbox[id := row])| == |UnpublishedRows(outbox)| + 1
  {
    assert UnpublishedRows(outbox[id := row]) == UnpublishedRows(outbox) + {id};
  }

  lemma CreateSize(s: State, name: string, createdAt: string, request: Option<string>)
    requires OutboxOk(s.outbox, s.nextRow, s.created)
    ensures |UnpublishedRows(CreateItem(s, name, createdAt, request).outbox)|
            == |UnpublishedRows(s.outbox)| + if NameTaken(s, name) then 0 else 1
  {
    hide UnpublishedRows, ParseItemCreated, ItemCreatedEvent, NameTaken;
    if !NameTaken(s, name) {
      NewRowSize(s.outbox, s.nextRow, Row(ItemCreatedEvent(s.nextItem, name, createdAt, request), None, 0));
    }
  }

  // ---------------------------------------------------------------- every step's balance

  lemma WorkBalance(s: State, e: Step)
    requires Inv(s) && Enabled(s, e)
    ensures WorkLeft(Apply(s, e)) == WorkLeft(s) + Added(s, e)
  {
    hide ApiApply, RelayApply, WorkApply, ConsumeApply, RelaysOk, WorkersOk, ConsumersOk, NothingLost, OutboxOk,
         ReportsOk, EventsOk,
         UnpublishedRows, MarkedRows, NameTaken, Enqueue;
    match e
    case Api(api) => RequestBalance(s, api);
    case Relaying(r, relayed) => RelayWorkBalance(s, r, relayed);
    case Items(onItems) => QueueBalance(s.itemsQueue, IsItemPoison, onItems);
    case Results(onResults) => QueueBalance(s.resultsQueue, IsReportPoison, onResults);
    case Working(w, worked) => WorkerBalance(s, w, worked);
    case Consuming(c, consumed) => ConsumerBalance(s, c, consumed);
  }

  lemma RequestBalance(s: State, e: ApiStep)
    requires DataOk(s)
    ensures WorkLeft(ApiApply(s, e)) == WorkLeft(s) + Added(s, Api(e))
  {
    hide UnpublishedRows, NameTaken, ItemCreatedEvent, CreateItem, EventsOk, ReportsOk;
    if e.Create? {
      CreateSize(s, e.name, e.createdAt, e.request);
      RequestsLeaveQueues(s, e);
    }
  }

  lemma RelayWorkBalance(s: State, r: nat, e: RelayStep)
    requires DataOk(s) && RelaysOk(s) && RelayEnabled(s, r, e)
    ensures WorkLeft(RelayApply(s, r, e)) == WorkLeft(s) + Added(s, Relaying(r, e))
  {
    hide UnpublishedRows, MarkedRows, Enqueue, CommitPass, OutboxOk, RelaysOk, EventsOk, ReportsOk;
    if e.Send? { EnqueueSize(s.itemsQueue, Decoded(s.outbox[Current(s.relays[r])].payload), e.sending); }
    if e.Commit? {
      PassIsOk(s, r);
      CommitSize(s, r);
      CommitLeavesQueues(s, r);
    }
  }

  lemma CommitLeavesQueues(s: State, r: nat)
    requires r in s.relays
    ensures CommitPass(s, r).itemsQueue == s.itemsQueue && CommitPass(s, r).resultsQueue == s.resultsQueue
  {
  }

  lemma QueueBalance(q: Queue, poison: Body -> bool, e: QueueStep)
    requires QueueOk(q) && QueueEnabled(q, poison, e)
    ensures |QueueApply(q, e).messages| == |q.messages| + if e.Foreign? then 1 else 0
  {
    hide Enqueue, Move;
    match e
    case Foreign(id, body) => EnqueueSize(q, body, Sending([id], true));
    case Timeout(id) => MoveSize(q, id, Visible);
    case SetAside(id) => MoveSize(q, id, Dead);
    case Redrive(id) => MoveSize(q, id, Visible);
  }

  lemma WorkerBalance(s: State, w: string, e: WorkStep)
    requires DataOk(s) && w != "" && WorkEnabled(s, w, e)
    ensures WorkLeft(WorkApply(s, w, e)) == WorkLeft(s) + Added(s, Working(w, e))
  {
    hide UnpublishedRows, Enqueue, Deliver, Deliveries, Remove, OutboxOk, EventsOk, ReportsOk, Opened;
    match e
    case Receive(ids) => DeliverSize(s.itemsQueue, ids);
    case SendReport(report) => EnqueueSize(s.resultsQueue, ReportBody(WorkerOf(s, w).step), report);
    case DeleteMessage => RemoveSize(s.itemsQueue, WorkerOf(s, w).step.message);
    case _ =>
  }

  lemma ConsumerBalance(s: State, c: nat, e: ConsumeStep)
    requires DataOk(s) && ConsumeEnabled(s, c, e)
    ensures WorkLeft(ConsumeApply(s, c, e)) == WorkLeft(s) + Added(s, Consuming(c, e))
  {
    hide UnpublishedRows, Deliver, Deliveries, Remove, OutboxOk, EventsOk, ReportsOk, Parse, RecordReport;
    match e
    case Fetch(ids) => DeliverSize(s.resultsQueue, ids);
    case DeleteReport => RemoveSize(s.resultsQueue, ConsumerOf(s, c).step.message);
    case _ =>
  }

  // ---------------------------------------------------------------- nothing left

  /** Every row is published, and what is left on either queue, dead letters included, is poison. */
  predicate OnlyPoisonLeft(s: State) {
    && UnpublishedRows(s.outbox) == {}
    && (forall id | id in s.itemsQueue.messages :: IsItemPoison(s.itemsQueue.messages[id].body))
    && (forall id | id in s.resultsQueue.messages :: IsReportPoison(s.resultsQueue.messages[id].body))
  }

  /** With nothing but poison left anywhere, every live item made by `create_item` has its
      projection, and it is the worker's receipt. */
  lemma OnlyPoisonLeftMeansProjected(s: State)
    requires Reachable(s) && OnlyPoisonLeft(s)
    ensures forall i | i in s.created && i in s.items ::
              i in s.projection && i in s.receipts
              && s.projection[i].at == s.receipts[i].at && s.projection[i].worker == s.receipts[i].worker
  {
    hide ParseItemCreated, ParseItemProcessed;
    ReportsTellTheReceipt(s);
    assert forall row | row in s.outbox && s.outbox[row].publishedAt.None? :: row in UnpublishedRows(s.outbox);
    forall i | i in s.created && i in s.items ensures i in s.projection {
      NoEventIsLost(s, i);
    }
  }

  lemma ZeroIsOnlyPoison(s: State)
    requires WorkLeft(s) == 0
    ensures OnlyPoisonLeft(s)
  {
    assert UnpublishedRows(s.outbox) == {} && s.itemsQueue.messages == map[] && s.resultsQueue.messages == map[];
  }

  /** So at zero every live item made by `create_item` is projected. */
  lemma NothingLeftMeansProjected(s: State)
    requires Reachable(s) && WorkLeft(s) == 0
    ensures forall i | i in s.created && i in s.items ::
              i in s.projection && i in s.receipts
              && s.projection[i].at == s.receipts[i].at && s.projection[i].worker == s.receipts[i].worker
  {
    ZeroIsOnlyPoison(s);
    OnlyPoisonLeftMeansProjected(s);
  }
}
