/** What every step of the pipeline keeps. */
module PipelineSafety {
  import opened Options
  import opened Events
  import opened Pipeline

  // ---------------------------------------------------------------- where an item's event is

  predicate NamesItem(body: Body, item: ItemId) {
    ParseItemCreated(body).Ok? && ParseItemCreated(body).value.item == item
  }

  predicate ReportsItem(body: Body, item: ItemId) {
    ParseItemProcessed(body).Ok? && ParseItemProcessed(body).value.item == item
  }

  ghost predicate HoldsEvent(q: Queue, item: ItemId) {
    exists id :: id in q.messages && NamesItem(q.messages[id].body, item)
  }

  ghost predicate HoldsReport(q: Queue, item: ItemId) {
    exists id :: id in q.messages && ReportsItem(q.messages[id].body, item)
  }

  ghost predicate Unpublished(outbox: map<RowId, Row>, item: ItemId) {
    exists row :: row in outbox && outbox[row].publishedAt.None? && NamesItem(Decoded(outbox[row].payload), item)
  }

  predicate Settled(items: map<ItemId, string>, projection: map<ItemId, Projection>, item: ItemId) {
    item !in items || item in projection
  }

  predicate Done(s: State, item: ItemId) {
    Settled(s.items, s.projection, item)
  }

  ghost predicate ReportedOn(s: State, item: ItemId) {
    Done(s, item) || HoldsReport(s.resultsQueue, item)
  }

  ghost predicate HandedOver(s: State, item: ItemId) {
    ReportedOn(s, item) || HoldsEvent(s.itemsQueue, item)
  }

  /** The item is deleted or projected, or its event is still somewhere it will be acted on. */
  ghost predicate Kept(s: State, item: ItemId) {
    HandedOver(s, item) || Unpublished(s.outbox, item)
  }

  // ---------------------------------------------------------------- the invariant

  predicate QueueOk(q: Queue) {
    forall id | id in q.messages :: id in q.log && q.log[id] == q.messages[id].body
  }

  predicate BatchOk(batch: seq<Delivery>, log: map<MessageId, Body>) {
    forall k | 0 <= k < |batch| :: batch[k].id in log && log[batch[k].id] == batch[k].body
  }

  predicate ItemsOk(items: map<ItemId, string>, created: set<ItemId>, next: ItemId, projection: map<ItemId,
                    Projection>) {
    && next >= 1
    && (forall i | i in items :: i < next)
    && (forall i | i in created :: 1 <= i < next)
    && (forall i | i in projection :: i in items)
  }

  predicate BodyOk(created: set<ItemId>, body: Body) {
    match ParseItemCreated(body)
    case Poison => true
    case Ok(c) => c.item in created
  }

  predicate OutboxOk(outbox: map<RowId, Row>, next: RowId, created: set<ItemId>) {
    forall row | row in outbox ::
      && row < next
      && !IsItemPoison(Decoded(outbox[row].payload))
      && BodyOk(created, Decoded(outbox[row].payload))
  }

  predicate EventsOk(log: map<MessageId, Body>, created: set<ItemId>) {
    forall id | id in log :: BodyOk(created, log[id])
  }

  /** A report says what the one receipt for its item says. */
  predicate ReportOk(receipts: map<ItemId, Receipt>, body: Body) {
    match ParseItemProcessed(body)
    case Poison => true
    case Ok(r) => r.item in receipts && receipts[r.item].at == r.at && receipts[r.item].worker == r.worker
  }

  predicate ReportsOk(log: map<MessageId, Body>, receipts: map<ItemId, Receipt>) {
    forall id | id in log :: ReportOk(receipts, log[id])
  }

  predicate ReceiptsOk(receipts: map<ItemId, Receipt>, created: set<ItemId>) {
    forall i | i in receipts :: i in created && receipts[i].at != "" && receipts[i].worker != ""
  }

  predicate AgreesWithReceipt(p: Projection, r: Receipt) {
    p.at == r.at && p.worker == r.worker
  }

  predicate ProjectionOk(projection: map<ItemId, Projection>, receipts: map<ItemId, Receipt>) {
    forall i | i in projection :: i in receipts && AgreesWithReceipt(projection[i], receipts[i])
  }

  predicate PassOk(outbox: map<RowId, Row>, p: Pass) {
    && p.tried <= |p.rows|
    && (forall j, k | 0 <= j < k < |p.rows| :: p.rows[j] < p.rows[k])
    && (forall row | row in p.rows :: row in outbox && outbox[row].publishedAt.None?)
    && (forall row | row in p.changed :: row in p.rows[..p.tried] && row in p.rows)
    && (forall k | 0 <= k < p.tried :: p.rows[k] in p.changed)
    && (forall row | row in p.changed && row in outbox :: p.changed[row].payload == outbox[row].payload)
  }

  /** A row marked in the session has had its event handed to the queue. */
  ghost predicate MarksOk(s: State, p: Pass) {
    forall row, item | Marked(p, row) && NamesItem(Decoded(p.changed[row].payload), item) ::
      item in s.created && HandedOver(s, item)
  }

  predicate Disjoint(p: Pass, q: Pass) {
    forall row | row in p.rows :: row !in q.rows
  }

  predicate PassesOk(relays: map<nat, Pass>, outbox: map<RowId, Row>) {
    && (forall r | r in relays :: PassOk(outbox, relays[r]))
    && (forall r, t | r in relays && t in relays && r != t :: Disjoint(relays[r], relays[t]))
  }

  ghost predicate RelaysOk(s: State) {
    && PassesOk(s.relays, s.outbox)
    && (forall r | r in s.relays :: MarksOk(s, s.relays[r]))
  }

  predicate Concerns(s: State, message: MessageId, item: ItemId) {
    message in s.itemsQueue.log && NamesItem(s.itemsQueue.log[message], item) && item in s.created
  }

  predicate HasReceipt(receipts: map<ItemId, Receipt>, item: ItemId, at: string, worker: string) {
    item in receipts && receipts[item].at == at && receipts[item].worker == worker
  }

  ghost predicate WorkerStepOk(s: State, step: WorkerStep) {
    match step
    case Resting => true
    case Parsed(message, item, _) => Concerns(s, message, item)
    case Conflicted(message, item, _) => Concerns(s, message, item) && item in s.receipts
    case Receipted(message, item, _, at, worker) => Concerns(s, message, item) && HasReceipt(s.receipts, item, at, worker)
    case Reported(message, item) => Concerns(s, message, item) && ReportedOn(s, item)
  }

  ghost predicate WorkerOk(s: State, me: Worker) {
    BatchOk(me.batch, s.itemsQueue.log) && WorkerStepOk(s, me.step)
  }

  ghost predicate ConsumerStepOk(s: State, step: ConsumerStep) {
    match step
    case Waiting => true
    case Understood(message, report) =>
      && message in s.resultsQueue.log && ParseItemProcessed(s.resultsQueue.log[message]) == Ok(report)
      && HasReceipt(s.receipts, report.item, report.at, report.worker) && report.item in s.created
    case Recorded(message, item) =>
      && message in s.resultsQueue.log && ReportsItem(s.resultsQueue.log[message], item)
      && item in s.created && Done(s, item)
  }

  ghost predicate ConsumerOk(s: State, me: Consumer) {
    BatchOk(me.batch, s.resultsQueue.log) && ConsumerStepOk(s, me.step)
  }

  ghost predicate WorkersOk(s: State) {
    forall w | w in s.workers :: w != "" && WorkerOk(s, s.workers[w])
  }

  ghost predicate ConsumersOk(s: State) {
    forall c | c in s.consumers :: ConsumerOk(s, s.consumers[c])
  }

  ghost predicate NothingLost(s: State) {
    forall i | i in s.created :: Kept(s, i)
  }

  /** Everything but the processes. */
  predicate DataOk(s: State) {
    && ItemsOk(s.items, s.created, s.nextItem, s.projection)
    && OutboxOk(s.outbox, s.nextRow, s.created)
    && QueueOk(s.itemsQueue) && EventsOk(s.itemsQueue.log, s.created)
    && QueueOk(s.resultsQueue) && ReportsOk(s.resultsQueue.log, s.receipts)
    && ReceiptsOk(s.receipts, s.created) && ProjectionOk(s.projection, s.receipts)
  }

  ghost predicate Inv(s: State) {
    DataOk(s) && RelaysOk(s) && WorkersOk(s) && ConsumersOk(s) && NothingLost(s)
  }

  // ---------------------------------------------------------------- what no step takes back

  predicate LogGrows(before: map<MessageId, Body>, after: map<MessageId, Body>) {
    forall id | id in before :: id in after && after[id] == before[id]
  }

  predicate ReceiptsGrow(before: map<ItemId, Receipt>, after: map<ItemId, Receipt>) {
    forall i | i in before :: i in after && after[i] == before[i]
  }

  /** History and hand-overs are never undone. */
  ghost predicate Grows(s: State, t: State) {
    && s.created <= t.created
    && LogGrows(s.itemsQueue.log, t.itemsQueue.log)
    && LogGrows(s.resultsQueue.log, t.resultsQueue.log)
    && ReceiptsGrow(s.receipts, t.receipts)
    && (forall i | i in s.created && Done(s, i) :: Done(t, i))
    && (forall i | i in s.created && ReportedOn(s, i) :: ReportedOn(t, i))
    && (forall i | i in s.created && HandedOver(s, i) :: HandedOver(t, i))
  }

  lemma WorkersStay(s: State, t: State)
    requires Grows(s, t) && WorkersOk(s) && t.workers == s.workers
    ensures WorkersOk(t)
  {
    forall w | w in t.workers ensures WorkerOk(t, t.workers[w]) { WorkerStays(s, t, s.workers[w]); }
  }

  /** A process that takes no step stays in order while the facts grow. */
  lemma WorkerStays(s: State, t: State, me: Worker)
    requires Grows(s, t) && WorkerOk(s, me)
    ensures WorkerOk(t, me)
  {
    hide ParseItemCreated, ParseItemProcessed;
  }

  lemma ConsumerStays(s: State, t: State, me: Consumer)
    requires Grows(s, t) && ConsumerOk(s, me)
    ensures ConsumerOk(t, me)
  {
    hide ParseItemCreated, ParseItemProcessed;
  }

  lemma ConsumersStay(s: State, t: State)
    requires Grows(s, t) && ConsumersOk(s) && t.consumers == s.consumers
    ensures ConsumersOk(t)
  {
    forall c | c in t.consumers ensures ConsumerOk(t, t.consumers[c]) { ConsumerStays(s, t, s.consumers[c]); }
  }

  lemma RelaysStay(s: State, t: State)
    requires Grows(s, t) && RelaysOk(s) && t.relays == s.relays && t.outbox == s.outbox
    ensures RelaysOk(t)
  {
    hide ParseItemCreated, ParseItemProcessed, HandedOver;
  }

  lemma NothingIsLost(s: State, t: State)
    requires Grows(s, t) && NothingLost(s) && t.created == s.created && t.outbox == s.outbox
    ensures NothingLost(t)
  {
    hide ParseItemCreated, ParseItemProcessed, HandedOver;
    forall i | i in t.created ensures Kept(t, i) { assert Kept(s, i); }
  }

  // ---------------------------------------------------------------- queues

  predicate Carried(q: Queue, r: Queue) {
    forall id | id in q.messages :: id in r.messages && r.messages[id].body == q.messages[id].body
  }

  lemma CarriedHolds(q: Queue, r: Queue, item: ItemId)
    requires Carried(q, r)
    ensures HoldsEvent(q, item) ==> HoldsEvent(r, item)
    ensures HoldsReport(q, item) ==> HoldsReport(r, item)
  {
    hide ParseItemCreated, ParseItemProcessed;
    if HoldsEvent(q, item) {
      var id :| id in q.messages && NamesItem(q.messages[id].body, item);
      assert id in r.messages && NamesItem(r.messages[id].body, item);
    }
    if HoldsReport(q, item) {
      var id :| id in q.messages && ReportsItem(q.messages[id].body, item);
      assert id in r.messages && ReportsItem(r.messages[id].body, item);
    }
  }

  lemma EnqueueKeeps(q: Queue, body: Body, sending: Sending)
    requires QueueOk(q) && IsSending(q, sending)
    ensures var r := Enqueue(q, body, sending.copies);
            && QueueOk(r) && Carried(q, r) && LogGrows(q.log, r.log)
            && (forall id | id in r.log :: id in q.log || r.log[id] == body)
            && (forall k | 0 <= k < |sending.copies| ::
                  sending.copies[k] in r.messages && r.messages[sending.copies[k]].body == body)
  {
  }

  lemma DeliverKeeps(q: Queue, ids: seq<MessageId>)
    requires QueueOk(q) && IsReceive(q, ids)
    ensures QueueOk(Deliver(q, ids)) && Carried(q, Deliver(q, ids)) && Deliver(q, ids).log == q.log
    ensures BatchOk(Deliveries(q, ids), q.log)
  {
  }

  lemma RemoveKeeps(q: Queue, id: MessageId)
    requires QueueOk(q)
    ensures QueueOk(Remove(q, id)) && Remove(q, id).log == q.log
    ensures forall m | m in q.messages && m != id ::
              m in Remove(q, id).messages && Remove(q, id).messages[m] == q.messages[m]
  {
  }

  lemma QueueStepKeeps(q: Queue, poison: Body -> bool, e: QueueStep)
    requires QueueOk(q) && QueueEnabled(q, poison, e)
    ensures var r := QueueApply(q, e);
            && QueueOk(r) && Carried(q, r) && LogGrows(q.log, r.log)
            && (forall id | id in r.log :: id in q.log || poison(r.log[id]))
  {
    match e
    case Foreign(id, body) => EnqueueKeeps(q, body, Sending([id], true));
    case Timeout(_) =>
    case SetAside(_) =>
    case Redrive(_) =>
  }

  /** New queues that carry every message of the old ones, and nothing else new. */
  lemma QueuesGrow(s: State, t: State)
    requires t.items == s.items && t.projection == s.projection && t.created == s.created
    requires ReceiptsGrow(s.receipts, t.receipts)
    requires Carried(s.itemsQueue, t.itemsQueue) && LogGrows(s.itemsQueue.log, t.itemsQueue.log)
    requires Carried(s.resultsQueue, t.resultsQueue) && LogGrows(s.resultsQueue.log, t.resultsQueue.log)
    ensures Grows(s, t)
  {
    hide HoldsEvent, HoldsReport;
    forall i | i in s.created
      ensures ReportedOn(s, i) ==> ReportedOn(t, i)
      ensures HandedOver(s, i) ==> HandedOver(t, i)
    {
      CarriedHolds(s.itemsQueue, t.itemsQueue, i);
      CarriedHolds(s.resultsQueue, t.resultsQueue, i);
    }
  }

  lemma ItemsQueueKeeps(s: State, e: QueueStep)
    requires Inv(s) && QueueEnabled(s.itemsQueue, IsItemPoison, e)
    ensures var t := s.(itemsQueue := QueueApply(s.itemsQueue, e)); Inv(t) && Grows(s, t)
  {
    hide Kept, HandedOver, ReportedOn, Grows, RelaysOk, WorkersOk, ConsumersOk, NothingLost, QueueApply, QueueEnabled,
         ParseItemCreated;
    var t := s.(itemsQueue := QueueApply(s.itemsQueue, e));
    QueueStepKeeps(s.itemsQueue, IsItemPoison, e);
    QueuesGrow(s, t);
    WorkersStay(s, t);
    ConsumersStay(s, t);
    RelaysStay(s, t);
    NothingIsLost(s, t);
  }

  lemma ResultsQueueKeeps(s: State, e: QueueStep)
    requires Inv(s) && QueueEnabled(s.resultsQueue, IsReportPoison, e)
    ensures var t := s.(resultsQueue := QueueApply(s.resultsQueue, e)); Inv(t) && Grows(s, t)
  {
    hide Kept, HandedOver, ReportedOn, Grows, RelaysOk, WorkersOk, ConsumersOk, NothingLost, QueueApply, QueueEnabled,
         ParseItemProcessed;
    var t := s.(resultsQueue := QueueApply(s.resultsQueue, e));
    QueueStepKeeps(s.resultsQueue, IsReportPoison, e);
    QueuesGrow(s, t);
    WorkersStay(s, t);
    ConsumersStay(s, t);
    RelaysStay(s, t);
    NothingIsLost(s, t);
  }

  // ---------------------------------------------------------------- the worker

  /** One worker moved; its new state is in order and the facts grew. */
  lemma WorkerMoves(s: State, t: State, w: string)
    requires Grows(s, t) && WorkersOk(s) && w != ""
    requires forall x | x in t.workers && x != w :: x in s.workers && t.workers[x] == s.workers[x]
    requires w in t.workers ==> WorkerOk(t, t.workers[w])
    ensures WorkersOk(t)
  {
    hide WorkerOk, Grows;
    forall x | x in t.workers ensures WorkerOk(t, t.workers[x]) {
      if x != w { WorkerStays(s, t, s.workers[x]); }
    }
  }

  lemma MyWorkerOk(s: State, w: string)
    requires WorkersOk(s)
    ensures WorkerOk(s, WorkerOf(s, w))
  {
    hide ParseItemCreated;
  }

  /** What a worker step leaves of the rest of the system when the facts grow. */
  lemma RestStays(s: State, t: State, w: string)
    requires Inv(s) && Grows(s, t) && DataOk(t) && w != ""
    requires t.created == s.created && t.outbox == s.outbox && t.relays == s.relays && t.consumers == s.consumers
    requires forall x | x in t.workers && x != w :: x in s.workers && t.workers[x] == s.workers[x]
    requires w in t.workers ==> WorkerOk(t, t.workers[w])
    ensures Inv(t)
  {
    hide WorkerOk, Grows, DataOk, RelaysOk, WorkersOk, ConsumersOk, NothingLost;
    WorkerMoves(s, t, w);
    ConsumersStay(s, t);
    RelaysStay(s, t);
    NothingIsLost(s, t);
  }

  lemma ReceiveKeeps(s: State, w: string, ids: seq<MessageId>)
    requires Inv(s) && w != "" && IsReceive(s.itemsQueue, ids)
    ensures var t := s.(itemsQueue := Deliver(s.itemsQueue, ids),
                        workers := s.workers[w := Worker(Deliveries(s.itemsQueue, ids), Resting)]);
            Inv(t) && Grows(s, t)
  {
    hide Kept, HandedOver, ReportedOn, Grows, RelaysOk, WorkersOk, ConsumersOk, NothingLost, Deliver, Deliveries;
    var t := s.(itemsQueue := Deliver(s.itemsQueue, ids),
                workers := s.workers[w := Worker(Deliveries(s.itemsQueue, ids), Resting)]);
    DeliverKeeps(s.itemsQueue, ids);
    QueuesGrow(s, t);
    RestStays(s, t, w);
  }

  /** Moving on in the worker's own memory changes nothing else. */
  lemma ThinkKeeps(s: State, w: string, me: Worker)
    requires Inv(s) && w != "" && WorkerOk(s, me)
    ensures Inv(s.(workers := s.workers[w := me])) && Grows(s, s.(workers := s.workers[w := me]))
  {
    hide Kept, HandedOver, ReportedOn, Grows, RelaysOk, WorkersOk, ConsumersOk, NothingLost, BatchOk, Concerns;
    var t := s.(workers := s.workers[w := me]);
    QueuesGrow(s, t);
    WorkerStays(s, t, me);
    RestStays(s, t, w);
  }

  lemma DieKeeps(s: State, w: string)
    requires Inv(s) && w != ""
    ensures Inv(s.(workers := s.workers - {w})) && Grows(s, s.(workers := s.workers - {w}))
  {
    hide Kept, HandedOver, ReportedOn, Grows, RelaysOk, WorkersOk, ConsumersOk, NothingLost, WorkerOk;
    var t := s.(workers := s.workers - {w});
    QueuesGrow(s, t);
    RestStays(s, t, w);
  }

  lemma BeginOk(s: State, d: Delivery)
    requires DataOk(s) && d.id in s.itemsQueue.log && s.itemsQueue.log[d.id] == d.body
    ensures ParseItemCreated(d.body).Ok? ==> Concerns(s, d.id, ParseItemCreated(d.body).value.item)
  {
    hide ParseItemCreated;
    assert BodyOk(s.created, s.itemsQueue.log[d.id]);
  }

  lemma NewReceiptOk(before: map<ItemId, Receipt>, created: set<ItemId>, item: ItemId, receipt: Receipt)
    requires ReceiptsOk(before, created) && item in created && item !in before && receipt.at != ""
    requires receipt.worker != ""
    ensures ReceiptsOk(before[item := receipt], created) && ReceiptsGrow(before, before[item := receipt])
  {
  }

  lemma ReceiptsStayTrue(before: map<ItemId, Receipt>, after: map<ItemId, Receipt>, log: map<MessageId, Body>,
                         projection: map<ItemId, Projection>)
    requires ReceiptsGrow(before, after)
    ensures ReportsOk(log, before) ==> ReportsOk(log, after)
    ensures ProjectionOk(projection, before) ==> ProjectionOk(projection, after)
  {
    hide ParseItemProcessed;
  }

  lemma InsertDataOk(s: State, w: string, me: Worker, at: string)
    requires DataOk(s) && w != "" && me.step.Parsed? && me.step.item in s.created && at != ""
    ensures var t := WriteReceipt(s, w, me, at); DataOk(t) && ReceiptsGrow(s.receipts, t.receipts)
  {
    hide ReceiptsOk, ReportsOk, ProjectionOk, ItemsOk, OutboxOk, EventsOk, QueueOk;
    var t := WriteReceipt(s, w, me, at);
    if me.step.item !in s.receipts {
      NewReceiptOk(s.receipts, s.created, me.step.item, Receipt(at, w, me.step.request));
      ReceiptsStayTrue(s.receipts, t.receipts, s.resultsQueue.log, s.projection);
    }
  }

  lemma InsertKeeps(s: State, w: string, me: Worker, at: string)
    requires Inv(s) && w != "" && WorkerOk(s, me) && me.step.Parsed? && at != ""
    ensures var t := WriteReceipt(s, w, me, at); Inv(t) && Grows(s, t)
  {
    hide Kept, HandedOver, ReportedOn, Grows, RelaysOk, WorkersOk, ConsumersOk, NothingLost, DataOk, BatchOk,
         ReceiptsGrow,
         Carried, LogGrows, NamesItem;
    var t := WriteReceipt(s, w, me, at);
    InsertDataOk(s, w, me, at);
    InsertGrows(s, t);
    WorkerStays(s, t, me);
    RestStays(s, t, w);
  }

  /** Nothing new but receipts, and the processes' own memory. */
  lemma InsertGrows(s: State, t: State)
    requires t.items == s.items && t.projection == s.projection && t.created == s.created
    requires ReceiptsGrow(s.receipts, t.receipts)
    requires t.itemsQueue == s.itemsQueue && t.resultsQueue == s.resultsQueue
    ensures Grows(s, t)
  {
    QueuesGrow(s, t);
  }

  lemma PublishKeeps(s: State, w: string, me: Worker, report: Sending)
    requires Inv(s) && w != "" && WorkerOk(s, me) && me.step.Receipted? && IsSending(s.resultsQueue, report)
    ensures var t := Publish(s, w, me, report); Inv(t) && Grows(s, t)
  {
    hide Kept, HandedOver, Grows, RelaysOk, WorkersOk, ConsumersOk, NothingLost, BatchOk, ParseItemCreated,
         ParseItemProcessed, Enqueue;
    var t := Publish(s, w, me, report);
    var body := ReportBody(me.step);
    ProcessedRoundTrip(me.step.item, me.step.at, me.step.worker, me.step.request);
    EnqueueKeeps(s.resultsQueue, body, report);
    QueuesGrow(s, t);
    WorkerStays(s, t, me);
    if report.returned {
      assert report.copies[0] in t.resultsQueue.messages;
      assert ReportsItem(t.resultsQueue.messages[report.copies[0]].body, me.step.item);
    }
    RestStays(s, t, w);
  }

  /** A worker deletes only a message whose report it has sent, so the hand-over stands. */
  lemma DeleteGrows(s: State, w: string, me: Worker)
    requires Inv(s) && WorkerOk(s, me) && me.step.Reported?
    ensures Grows(s, s.(itemsQueue := Remove(s.itemsQueue, me.step.message), workers := s.workers[w := me.(step := Resting)]))
  {
    hide RelaysOk, WorkersOk, ConsumersOk, NothingLost, BatchOk, ParseItemCreated, ParseItemProcessed, Remove,
         HoldsReport;
    var t := s.(itemsQueue := Remove(s.itemsQueue, me.step.message), workers := s.workers[w := me.(step := Resting)]);
    var Reported(message, item) := me.step;
    RemoveKeeps(s.itemsQueue, message);
    forall i | i in s.created && HandedOver(s, i)
      ensures HandedOver(t, i)
    {
      if !ReportedOn(s, i) {
        var id :| id in s.itemsQueue.messages && NamesItem(s.itemsQueue.messages[id].body, i);
        if id != message {
          assert id in t.itemsQueue.messages && NamesItem(t.itemsQueue.messages[id].body, i);
        }
      }
    }
  }

  lemma DeleteKeeps(s: State, w: string, me: Worker)
    requires Inv(s) && w != "" && WorkerOk(s, me) && me.step.Reported?
    ensures var t := s.(itemsQueue := Remove(s.itemsQueue, me.step.message), workers := s.workers[w := me.(step := Resting)]);
            Inv(t) && Grows(s, t)
  {
    hide Kept, HandedOver, ReportedOn, Grows, RelaysOk, WorkersOk, ConsumersOk, NothingLost, BatchOk, Remove,
         ParseItemCreated;
    var t := s.(itemsQueue := Remove(s.itemsQueue, me.step.message), workers := s.workers[w := me.(step := Resting)]);
    DeleteGrows(s, w, me);
    RemoveKeeps(s.itemsQueue, me.step.message);
    WorkerStays(s, t, me.(step := Resting));
    RestStays(s, t, w);
  }

  lemma WorkKeeps(s: State, w: string, e: WorkStep)
    requires Inv(s) && w != "" && WorkEnabled(s, w, e)
    ensures Inv(WorkApply(s, w, e)) && Grows(s, WorkApply(s, w, e))
  {
    hide DataOk, RelaysOk, ConsumersOk, NothingLost, Grows, WorkersOk, WorkerStepOk, ParseItemCreated;
    var me := WorkerOf(s, w);
    assert WorkerOk(s, me) by { MyWorkerOk(s, w); }
    match e
    case Receive(ids) => ReceiveKeeps(s, w, ids);
    case InsertReceipt(at) => InsertKeeps(s, w, me, at);
    case SendReport(report) => PublishKeeps(s, w, me, report);
    case DeleteMessage => DeleteKeeps(s, w, me);
    case Begin => BeginKeeps(s, w, me);
    case ReadReceipt => ReadKeeps(s, w, me);
    case GiveUp => GiveUpKeeps(s, w, me);
    case Die => DieKeeps(s, w);
  }

  lemma BeginKeeps(s: State, w: string, me: Worker)
    requires Inv(s) && w != "" && WorkerOk(s, me) && me.batch != []
    ensures var t := s.(workers := s.workers[w := Worker(me.batch[1..], Opened(me.batch[0]))]); Inv(t) && Grows(s, t)
  {
    hide RelaysOk, ConsumersOk, WorkersOk, NothingLost, Grows, ParseItemCreated;
    assert BatchOk(me.batch[1..], s.itemsQueue.log);
    BeginOk(s, me.batch[0]);
    ThinkKeeps(s, w, Worker(me.batch[1..], Opened(me.batch[0])));
  }

  lemma ReadKeeps(s: State, w: string, me: Worker)
    requires Inv(s) && w != "" && WorkerOk(s, me) && me.step.Conflicted?
    ensures me.step.item in s.receipts
    ensures var t := s.(workers := s.workers[w := ReadBack(me, s.receipts[me.step.item])]); Inv(t) && Grows(s, t)
  {
    hide RelaysOk, ConsumersOk, WorkersOk, NothingLost, Grows, DataOk, BatchOk, Concerns;
    ThinkKeeps(s, w, ReadBack(me, s.receipts[me.step.item]));
  }

  lemma GiveUpKeeps(s: State, w: string, me: Worker)
    requires Inv(s) && w != "" && WorkerOk(s, me)
    ensures var t := s.(workers := s.workers[w := me.(step := Resting)]); Inv(t) && Grows(s, t)
  {
    hide RelaysOk, ConsumersOk, WorkersOk, NothingLost, Grows, DataOk, BatchOk, Concerns;
    ThinkKeeps(s, w, me.(step := Resting));
  }

  // ---------------------------------------------------------------- the consumer

  lemma MyConsumerOk(s: State, c: nat)
    requires ConsumersOk(s)
    ensures ConsumerOk(s, ConsumerOf(s, c))
  {
    hide ParseItemProcessed;
  }

  lemma ConsumerMoves(s: State, t: State, c: nat)
    requires Inv(s) && Grows(s, t) && DataOk(t)
    requires t.created == s.created && t.outbox == s.outbox && t.relays == s.relays && t.workers == s.workers
    requires forall x | x in t.consumers && x != c :: x in s.consumers && t.consumers[x] == s.consumers[x]
    requires c in t.consumers ==> ConsumerOk(t, t.consumers[c])
    ensures Inv(t)
  {
    hide ConsumerOk, WorkerOk, Grows, DataOk, RelaysOk, WorkersOk, NothingLost;
    forall x | x in t.consumers ensures ConsumerOk(t, t.consumers[x]) {
      if x != c { ConsumerStays(s, t, s.consumers[x]); }
    }
    WorkersStay(s, t);
    RelaysStay(s, t);
    NothingIsLost(s, t);
  }

  lemma FetchKeeps(s: State, c: nat, ids: seq<MessageId>)
    requires Inv(s) && IsReceive(s.resultsQueue, ids)
    ensures var t := s.(resultsQueue := Deliver(s.resultsQueue, ids),
                        consumers := s.consumers[c := Consumer(Deliveries(s.resultsQueue, ids), Waiting)]);
            Inv(t) && Grows(s, t)
  {
    hide Kept, HandedOver, ReportedOn, Grows, RelaysOk, WorkersOk, ConsumersOk, NothingLost, Deliver, Deliveries;
    var t := s.(resultsQueue := Deliver(s.resultsQueue, ids),
                consumers := s.consumers[c := Consumer(Deliveries(s.resultsQueue, ids), Waiting)]);
    DeliverKeeps(s.resultsQueue, ids);
    QueuesGrow(s, t);
    ConsumerMoves(s, t, c);
  }

  lemma ConsumerThinkKeeps(s: State, c: nat, me: Consumer)
    requires Inv(s) && ConsumerOk(s, me)
    ensures Inv(s.(consumers := s.consumers[c := me])) && Grows(s, s.(consumers := s.consumers[c := me]))
  {
    hide Kept, HandedOver, ReportedOn, Grows, RelaysOk, WorkersOk, ConsumersOk, NothingLost, BatchOk,
         ParseItemProcessed;
    var t := s.(consumers := s.consumers[c := me]);
    QueuesGrow(s, t);
    ConsumerStays(s, t, me);
    ConsumerMoves(s, t, c);
  }

  lemma UnderstandKeeps(s: State, c: nat, me: Consumer)
    requires Inv(s) && ConsumerOk(s, me) && me.batch != []
    ensures var t := s.(consumers := s.consumers[c := Consumer(me.batch[1..], Parse(me.batch[0]))]); Inv(t) && Grows(s, t)
  {
    hide RelaysOk, ConsumersOk, WorkersOk, NothingLost, Grows, ParseItemProcessed;
    assert BatchOk(me.batch[1..], s.resultsQueue.log);
    assert ReportOk(s.receipts, s.resultsQueue.log[me.batch[0].id]);
    ConsumerThinkKeeps(s, c, Consumer(me.batch[1..], Parse(me.batch[0])));
  }

  lemma StopKeeps(s: State, c: nat)
    requires Inv(s)
    ensures Inv(s.(consumers := s.consumers - {c})) && Grows(s, s.(consumers := s.consumers - {c}))
  {
    hide Kept, HandedOver, ReportedOn, Grows, RelaysOk, WorkersOk, ConsumersOk, NothingLost, ConsumerOk;
    var t := s.(consumers := s.consumers - {c});
    QueuesGrow(s, t);
    ConsumerMoves(s, t, c);
  }

  lemma RecordGrows(s: State, c: nat, me: Consumer)
    requires me.step.Understood?
    ensures Grows(s, RecordStep(s, c, me)) && Done(RecordStep(s, c, me), me.step.report.item)
  {
    hide HoldsEvent, HoldsReport;
  }

  lemma RecordKeeps(s: State, c: nat, me: Consumer)
    requires Inv(s) && ConsumerOk(s, me) && me.step.Understood?
    ensures Inv(RecordStep(s, c, me)) && Grows(s, RecordStep(s, c, me))
  {
    hide Kept, HandedOver, ReportedOn, Grows, RelaysOk, WorkersOk, ConsumersOk, NothingLost, BatchOk,
         ParseItemProcessed, Done;
    RecordGrows(s, c, me);
    ConsumerMoves(s, RecordStep(s, c, me), c);
  }

  /** A consumer deletes only a report it has projected, or that has nothing to be projected on. */
  lemma DeleteReportGrows(s: State, c: nat, me: Consumer)
    requires QueueOk(s.resultsQueue) && ConsumerOk(s, me) && me.step.Recorded?
    ensures Grows(s, DropReport(s, c, me))
  {
    hide BatchOk, ParseItemCreated, ParseItemProcessed, Remove, HoldsEvent;
    var t := DropReport(s, c, me);
    var Recorded(message, item) := me.step;
    RemoveKeeps(s.resultsQueue, message);
    forall i | i in s.created && ReportedOn(s, i)
      ensures ReportedOn(t, i)
    {
      if !Done(s, i) {
        var id :| id in s.resultsQueue.messages && ReportsItem(s.resultsQueue.messages[id].body, i);
        assert id != message;
        assert id in t.resultsQueue.messages && ReportsItem(t.resultsQueue.messages[id].body, i);
      }
    }
  }

  lemma DeleteReportKeeps(s: State, c: nat, me: Consumer)
    requires Inv(s) && ConsumerOk(s, me) && me.step.Recorded?
    ensures Inv(DropReport(s, c, me)) && Grows(s, DropReport(s, c, me))
  {
    hide Kept, HandedOver, ReportedOn, Grows, RelaysOk, WorkersOk, ConsumersOk, NothingLost, BatchOk, Remove,
         ParseItemProcessed;
    DeleteReportGrows(s, c, me);
    RemoveKeeps(s.resultsQueue, me.step.message);
    ConsumerMoves(s, DropReport(s, c, me), c);
  }

  lemma ConsumeKeeps(s: State, c: nat, e: ConsumeStep)
    requires Inv(s) && ConsumeEnabled(s, c, e)
    ensures Inv(ConsumeApply(s, c, e)) && Grows(s, ConsumeApply(s, c, e))
  {
    hide DataOk, RelaysOk, WorkersOk, NothingLost, Grows, ConsumersOk, ConsumerStepOk, ParseItemProcessed;
    var me := ConsumerOf(s, c);
    assert ConsumerOk(s, me) by { MyConsumerOk(s, c); }
    match e
    case Fetch(ids) => FetchKeeps(s, c, ids);
    case Understand => UnderstandKeeps(s, c, me);
    case Record => RecordKeeps(s, c, me);
    case DeleteReport => DeleteReportKeeps(s, c, me);
    case LeaveReport => LeaveKeeps(s, c, me);
    case Stop => StopKeeps(s, c);
  }

  lemma LeaveKeeps(s: State, c: nat, me: Consumer)
    requires Inv(s) && ConsumerOk(s, me)
    ensures var t := s.(consumers := s.consumers[c := me.(step := Waiting)]); Inv(t) && Grows(s, t)
  {
    hide RelaysOk, ConsumersOk, WorkersOk, NothingLost, Grows, DataOk, BatchOk;
    ConsumerThinkKeeps(s, c, me.(step := Waiting));
  }

  // ---------------------------------------------------------------- the api

  lemma AccountGrows(s: State, t: State)
    requires s.created <= t.created && t.receipts == s.receipts && t.itemsQueue == s.itemsQueue
    requires t.resultsQueue == s.resultsQueue
    requires forall i | i in s.created && Done(s, i) :: Done(t, i)
    ensures Grows(s, t)
  {
    hide HoldsEvent, HoldsReport, Done;
  }

  /** Requests that make no event: the outbox and the created items are as they were. */
  lemma AccountKeeps(s: State, t: State)
    requires Inv(s) && DataOk(t)
    requires t == s.(items := t.items, nextItem := t.nextItem, projection := t.projection)
    requires forall i | i in s.created && Done(s, i) :: Done(t, i)
    ensures Inv(t) && Grows(s, t)
  {
    hide Grows, DataOk, RelaysOk, WorkersOk, ConsumersOk, NothingLost, Done;
    AccountGrows(s, t);
    WorkersStay(s, t);
    ConsumersStay(s, t);
    RelaysStay(s, t);
    NothingIsLost(s, t);
  }

  lemma SeedKeeps(s: State, name: string)
    requires Inv(s)
    ensures Inv(SeedItem(s, name)) && Grows(s, SeedItem(s, name))
  {
    hide Grows, RelaysOk, WorkersOk, ConsumersOk, NothingLost, NameTaken;
    AccountKeeps(s, SeedItem(s, name));
  }

  lemma RollbackKeeps(s: State)
    requires Inv(s)
    ensures Inv(s.(nextItem := s.nextItem + 1)) && Grows(s, s.(nextItem := s.nextItem + 1))
  {
    hide Grows, RelaysOk, WorkersOk, ConsumersOk, NothingLost;
    AccountKeeps(s, s.(nextItem := s.nextItem + 1));
  }

  lemma RenameKeeps(s: State, item: ItemId, name: string)
    requires Inv(s)
    ensures Inv(RenameItem(s, item, name)) && Grows(s, RenameItem(s, item, name))
  {
    hide Grows, RelaysOk, WorkersOk, ConsumersOk, NothingLost, NameTaken;
    AccountKeeps(s, RenameItem(s, item, name));
  }

  lemma DeleteItemKeeps(s: State, item: ItemId)
    requires Inv(s)
    ensures Inv(DeleteItem(s, item)) && Grows(s, DeleteItem(s, item))
  {
    hide Grows, RelaysOk, WorkersOk, ConsumersOk, NothingLost;
    AccountKeeps(s, DeleteItem(s, item));
  }

  lemma CreateDataOk(s: State, name: string, createdAt: string, request: Option<string>)
    requires DataOk(s)
    ensures DataOk(CreateItem(s, name, createdAt, request))
  {
    hide ParseItemCreated, ParseItemProcessed, ItemCreatedEvent, NameTaken;
    var t := CreateItem(s, name, createdAt, request);
    CreatedRoundTrip(s.nextItem, name, createdAt, request);
    if !NameTaken(s, name) {
      forall row | row in t.outbox
        ensures row < t.nextRow && !IsItemPoison(Decoded(t.outbox[row].payload))
        ensures BodyOk(t.created, Decoded(t.outbox[row].payload))
      {
        assert row != s.nextRow ==> BodyOk(s.created, Decoded(s.outbox[row].payload));
      }
      assert EventsOk(t.itemsQueue.log, t.created) by {
        forall id | id in t.itemsQueue.log ensures BodyOk(t.created, t.itemsQueue.log[id]) {
          assert BodyOk(s.created, s.itemsQueue.log[id]);
        }
      }
    }
  }

  lemma PassSurvives(before: map<RowId, Row>, after: map<RowId, Row>, p: Pass)
    requires PassOk(before, p)
    requires forall row | row in p.rows :: row in after && row in before && after[row] == before[row]
    ensures PassOk(after, p)
  {
  }

  lemma CreateRelaysOk(s: State, t: State)
    requires Grows(s, t) && RelaysOk(s) && t.relays == s.relays
    requires forall row | row in s.outbox :: row in t.outbox && t.outbox[row] == s.outbox[row]
    ensures RelaysOk(t)
  {
    hide Grows, MarksOk, Disjoint, PassOk;
    forall r | r in t.relays ensures PassOk(t.outbox, t.relays[r]) && MarksOk(t, t.relays[r]) {
      PassRows(s.outbox, s.relays[r]);
      PassSurvives(s.outbox, t.outbox, s.relays[r]);
      MarksStay(s, t, s.relays[r]);
    }
  }

  lemma PassRows(outbox: map<RowId, Row>, p: Pass)
    requires PassOk(outbox, p)
    ensures forall row | row in p.rows :: row in outbox && outbox[row].publishedAt.None?
  {
  }

  /** An item and its event are born together, so the new item is kept. */
  lemma CreateKept(s: State, name: string, createdAt: string, request: Option<string>)
    requires DataOk(s) && NothingLost(s) && Grows(s, CreateItem(s, name, createdAt, request))
    ensures NothingLost(CreateItem(s, name, createdAt, request))
  {
    hide ParseItemCreated, ItemCreatedEvent, HandedOver, NameTaken;
    var t := CreateItem(s, name, createdAt, request);
    CreatedRoundTrip(s.nextItem, name, createdAt, request);
    forall i | i in t.created
      ensures Kept(t, i)
    {
      if i in s.created {
        assert Kept(s, i);
        if Unpublished(s.outbox, i) {
          var row :| row in s.outbox && s.outbox[row].publishedAt.None? && NamesItem(Decoded(s.outbox[row].payload), i);
          assert row in t.outbox && t.outbox[row].publishedAt.None? && NamesItem(Decoded(t.outbox[row].payload), i);
        }
      } else {
        assert s.nextRow in t.outbox && t.outbox[s.nextRow].publishedAt.None? && NamesItem(Decoded(t.outbox[s.nextRow].payload), i);
      }
    }
  }

  lemma CreateKeeps(s: State, name: string, createdAt: string, request: Option<string>)
    requires Inv(s)
    ensures var t := CreateItem(s, name, createdAt, request); Inv(t) && Grows(s, t)
  {
    hide Grows, RelaysOk, WorkersOk, ConsumersOk, NothingLost, NameTaken, ItemCreatedEvent, OutboxOk, EventsOk,
         ReportsOk, QueueOk;
    var t := CreateItem(s, name, createdAt, request);
    CreateDataOk(s, name, createdAt, request);
    AccountGrows(s, t);
    CreateKept(s, name, createdAt, request);
    WorkersStay(s, t);
    ConsumersStay(s, t);
    CreateRows(s, name, createdAt, request);
    CreateRelaysOk(s, t);
  }

  lemma CreateRows(s: State, name: string, createdAt: string, request: Option<string>)
    requires OutboxOk(s.outbox, s.nextRow, s.created)
    ensures var t := CreateItem(s, name, createdAt, request);
            forall row | row in s.outbox :: row in t.outbox && t.outbox[row] == s.outbox[row]
  {
    hide ItemCreatedEvent, ParseItemCreated;
  }

  lemma ApiKeeps(s: State, e: ApiStep)
    requires Inv(s)
    ensures Inv(ApiApply(s, e)) && Grows(s, ApiApply(s, e))
  {
    hide Inv, Grows;
    match e
    case Create(name, createdAt, request) => CreateKeeps(s, name, createdAt, request);
    case Rollback => RollbackKeeps(s);
    case Seed(name) => SeedKeeps(s, name);
    case Rename(item, newName) => RenameKeeps(s, item, newName);
    case Delete(item) => DeleteItemKeeps(s, item);
  }

  // ---------------------------------------------------------------- the relay

  /** A relay's step leaves the worker, the consumer and the lost-nothing property alone. */
  lemma RelayMoves(s: State, t: State)
    requires Inv(s) && Grows(s, t) && DataOk(t) && RelaysOk(t)
    requires t.created == s.created && t.outbox == s.outbox && t.workers == s.workers && t.consumers == s.consumers
    ensures Inv(t)
  {
    hide WorkerOk, Grows, DataOk, RelaysOk, WorkersOk, ConsumersOk, NothingLost;
    WorkersStay(s, t);
    ConsumersStay(s, t);
    NothingIsLost(s, t);
  }

  lemma SelectPassesOk(s: State, r: nat, rows: seq<RowId>)
    requires PassesOk(s.relays, s.outbox) && r !in s.relays && IsSelection(s, rows)
    ensures PassesOk(s.relays[r := Pass(rows, 0, map[])], s.outbox)
  {
    hide PassOk;
    var p := Pass(rows, 0, map[]);
    FreshPassOk(s, rows);
    forall x | x in s.relays ensures Disjoint(p, s.relays[x]) && Disjoint(s.relays[x], p) {
      assert forall row | row in rows :: Unlocked(s, row);
    }
  }

  lemma FreshPassOk(s: State, rows: seq<RowId>)
    requires IsSelection(s, rows)
    ensures PassOk(s.outbox, Pass(rows, 0, map[]))
    ensures forall row | row in rows :: Unlocked(s, row)
  {
    hide Unlocked;
  }

  lemma SelectKeeps(s: State, r: nat, rows: seq<RowId>)
    requires Inv(s) && r !in s.relays && IsSelection(s, rows)
    ensures var t := s.(relays := s.relays[r := Pass(rows, 0, map[])]); Inv(t) && Grows(s, t)
  {
    hide Kept, HandedOver, ReportedOn, Grows, WorkersOk, ConsumersOk, NothingLost, ParseItemCreated, DataOk, PassesOk,
         IsSelection, NamesItem;
    var t := s.(relays := s.relays[r := Pass(rows, 0, map[])]);
    QueuesGrow(s, t);
    SelectPassesOk(s, r, rows);
    forall x | x in t.relays ensures MarksOk(t, t.relays[x]) {
      if x != r { MarksStay(s, t, s.relays[x]); }
    }
    SelectDataOk(s, t);
    RelayMoves(s, t);
  }

  lemma SelectDataOk(s: State, t: State)
    requires DataOk(s) && t == s.(relays := t.relays)
    ensures DataOk(t)
  {
  }

  lemma MarksStay(s: State, t: State, p: Pass)
    requires Grows(s, t) && MarksOk(s, p)
    ensures MarksOk(t, p)
  {
    hide ParseItemCreated, HandedOver;
  }

  lemma AbortKeeps(s: State, r: nat)
    requires Inv(s) && r in s.relays
    ensures Inv(AbortPass(s, r)) && Grows(s, AbortPass(s, r))
  {
    hide Kept, HandedOver, ReportedOn, Grows, WorkersOk, ConsumersOk, NothingLost, ParseItemCreated, PassOk, Disjoint,
         MarksOk;
    var t := AbortPass(s, r);
    QueuesGrow(s, t);
    forall x | x in t.relays ensures MarksOk(t, t.relays[x]) { MarksStay(s, t, s.relays[x]); }
    RelayMoves(s, t);
  }

  /** The pass moves on by one row and keeps its shape. */
  lemma TriedPassOk(outbox: map<RowId, Row>, p: Pass, returned: bool, now: int)
    requires PassOk(outbox, p) && p.tried < |p.rows|
    ensures PassOk(outbox, Pass(p.rows, p.tried + 1, p.changed[Current(p) := Tried(outbox[Current(p)], returned, now)]))
  {
    var q := Pass(p.rows, p.tried + 1, p.changed[Current(p) := Tried(outbox[Current(p)], returned, now)]);
    assert q.rows[..q.tried] == p.rows[..p.tried] + [Current(p)];
  }

  lemma SendDataOk(s: State, r: nat, sending: Sending, now: int)
    requires DataOk(s) && CanSend(s, r) && IsSending(s.itemsQueue, sending)
    ensures var t := SendRow(s, r, sending, now); DataOk(t) && Grows(s, t)
  {
    hide Enqueue, ParseItemCreated, HandedOver, ReportedOn, Grows, ReportsOk, ItemsOk, ReceiptsOk, ProjectionOk;
    var t := SendRow(s, r, sending, now);
    var body := Decoded(s.outbox[Current(s.relays[r])].payload);
    EnqueueKeeps(s.itemsQueue, body, sending);
    QueuesGrow(s, t);
    assert BodyOk(s.created, body);
  }

  /** A mark is made only after the queue took a copy. */
  lemma SendMarksOk(s: State, r: nat, sending: Sending, now: int)
    requires DataOk(s) && RelaysOk(s) && CanSend(s, r) && IsSending(s.itemsQueue, sending)
    requires Grows(s, SendRow(s, r, sending, now))
    ensures var t := SendRow(s, r, sending, now); MarksOk(t, t.relays[r])
  {
    hide Enqueue, ParseItemCreated, ReportedOn, Grows, PassesOk;
    var t := SendRow(s, r, sending, now);
    var id := Current(s.relays[r]);
    var body := Decoded(s.outbox[id].payload);
    EnqueueKeeps(s.itemsQueue, body, sending);
    MarksStay(s, t, s.relays[r]);
    assert BodyOk(s.created, body) && t.created == s.created;
    PassIsOk(s, r);
    var q := t.relays[r];
    forall row, item | Marked(q, row) && NamesItem(Decoded(q.changed[row].payload), item)
      ensures item in t.created && HandedOver(t, item)
    {
      if row == id {
        assert sending.returned && sending.copies[0] in t.itemsQueue.messages;
        assert NamesItem(t.itemsQueue.messages[sending.copies[0]].body, item);
      } else {
        assert Marked(s.relays[r], row);
      }
    }
  }

  lemma SendRelaysOk(s: State, r: nat, sending: Sending, now: int)
    requires DataOk(s) && RelaysOk(s) && CanSend(s, r) && IsSending(s.itemsQueue, sending)
    ensures RelaysOk(SendRow(s, r, sending, now))
  {
    hide Enqueue, ParseItemCreated, HandedOver, ReportedOn, Grows, DataOk, PassOk, MarksOk, Marked;
    var t := SendRow(s, r, sending, now);
    SendDataOk(s, r, sending, now);
    SendMarksOk(s, r, sending, now);
    TriedPassOk(s.outbox, s.relays[r], sending.returned, now);
    forall x | x in t.relays ensures MarksOk(t, t.relays[x]) {
      if x != r { MarksStay(s, t, s.relays[x]); }
    }
    assert forall x | x in t.relays :: t.relays[x].rows == s.relays[x].rows;
  }

  lemma SendKeeps(s: State, r: nat, sending: Sending, now: int)
    requires Inv(s) && CanSend(s, r) && IsSending(s.itemsQueue, sending)
    ensures Inv(SendRow(s, r, sending, now)) && Grows(s, SendRow(s, r, sending, now))
  {
    hide Grows, DataOk, RelaysOk, WorkersOk, ConsumersOk, NothingLost, Enqueue;
    SendDataOk(s, r, sending, now);
    SendRelaysOk(s, r, sending, now);
    RelayMoves(s, SendRow(s, r, sending, now));
  }

  // ---- the commit

  lemma CommitOutboxOk(s: State, r: nat)
    requires DataOk(s) && r in s.relays && PassOk(s.outbox, s.relays[r])
    ensures var t := CommitPass(s, r);
            && DataOk(t) && t.outbox.Keys == s.outbox.Keys
            && (forall row | row in s.outbox :: t.outbox[row].payload == s.outbox[row].payload)
            && (forall row | row in s.outbox && row !in s.relays[r].rows :: t.outbox[row] == s.outbox[row])
  {
    hide ParseItemCreated, ParseItemProcessed, ItemsOk, EventsOk, ReportsOk, QueueOk, ReceiptsOk, ProjectionOk;
    var t := CommitPass(s, r);
    forall row | row in t.outbox
      ensures row in s.outbox && t.outbox[row].payload == s.outbox[row].payload
    {
    }
    forall row | row in t.outbox
      ensures row < t.nextRow && !IsItemPoison(Decoded(t.outbox[row].payload))
      ensures BodyOk(t.created, Decoded(t.outbox[row].payload))
    {
      assert BodyOk(s.created, Decoded(s.outbox[row].payload));
    }
  }

  /** What a pass did not mark is unpublished still. */
  lemma UnmarkedStays(outbox: map<RowId, Row>, p: Pass, row: RowId)
    requires PassOk(outbox, p) && row in outbox && outbox[row].publishedAt.None? && !Marked(p, row)
    ensures var after := outbox + p.changed;
            row in after && after[row].publishedAt.None? && after[row].payload == outbox[row].payload
  {
  }

  /** What a pass committed is handed over; what it did not touch is still unpublished. */
  lemma CommitKept(s: State, r: nat)
    requires RelaysOk(s) && NothingLost(s) && r in s.relays && Grows(s, CommitPass(s, r))
    ensures NothingLost(CommitPass(s, r))
  {
    hide ParseItemCreated, HandedOver, Grows, PassOk, PassesOk, RelaysOk;
    var t := CommitPass(s, r);
    var p := s.relays[r];
    PassIsOk(s, r);
    forall i | i in t.created
      ensures Kept(t, i)
    {
      assert Kept(s, i);
      if HandedOver(s, i) {
        GrownHandedOver(s, t, i);
      } else {
        var row :| row in s.outbox && s.outbox[row].publishedAt.None? && NamesItem(Decoded(s.outbox[row].payload), i);
        MarkedIsHandedOver(s, r, row, i);
        UnmarkedStays(s.outbox, p, row);
        assert NamesItem(Decoded(t.outbox[row].payload), i);
      }
    }
  }

  lemma MarkedIsHandedOver(s: State, r: nat, row: RowId, item: ItemId)
    requires RelaysOk(s) && r in s.relays && row in s.outbox && NamesItem(Decoded(s.outbox[row].payload), item)
    ensures Marked(s.relays[r], row) ==> HandedOver(s, item)
  {
    hide ParseItemCreated, HandedOver;
    assert PassOk(s.outbox, s.relays[r]) && MarksOk(s, s.relays[r]);
  }

  lemma GrownHandedOver(s: State, t: State, i: ItemId)
    requires Grows(s, t) && i in s.created && HandedOver(s, i)
    ensures HandedOver(t, i)
  {
    hide HandedOver;
  }

  lemma CommitRelaysOk(s: State, r: nat)
    requires RelaysOk(s) && r in s.relays && Grows(s, CommitPass(s, r))
    ensures RelaysOk(CommitPass(s, r))
  {
    hide Grows, MarksOk, PassOk, Disjoint;
    var t := CommitPass(s, r);
    forall x | x in t.relays
      ensures PassOk(t.outbox, t.relays[x]) && MarksOk(t, t.relays[x])
    {
      OtherPassSurvives(s.outbox, s.relays[r], s.relays[x]);
      MarksStay(s, t, s.relays[x]);
    }
  }

  lemma OtherPassSurvives(outbox: map<RowId, Row>, p: Pass, q: Pass)
    requires PassOk(outbox, p) && PassOk(outbox, q) && Disjoint(q, p)
    ensures PassOk(outbox + p.changed, q)
  {
    forall row | row in q.rows ensures row in outbox && (outbox + p.changed)[row] == outbox[row] {
    }
    PassSurvives(outbox, outbox + p.changed, q);
  }

  lemma CommitKeeps(s: State, r: nat)
    requires Inv(s) && r in s.relays
    ensures Inv(CommitPass(s, r)) && Grows(s, CommitPass(s, r))
  {
    hide Grows, RelaysOk, WorkersOk, ConsumersOk, NothingLost, DataOk;
    var t := CommitPass(s, r);
    QueuesGrow(s, t);
    PassIsOk(s, r);
    CommitOutboxOk(s, r);
    CommitRelaysOk(s, r);
    CommitKept(s, r);
    WorkersStay(s, t);
    ConsumersStay(s, t);
  }

  lemma PassIsOk(s: State, r: nat)
    requires RelaysOk(s) && r in s.relays
    ensures PassOk(s.outbox, s.relays[r])
  {
  }

  lemma RelayKeeps(s: State, r: nat, e: RelayStep)
    requires Inv(s) && RelayEnabled(s, r, e)
    ensures Inv(RelayApply(s, r, e)) && Grows(s, RelayApply(s, r, e))
  {
    hide Inv, Grows;
    match e
    case Select(rows) => SelectKeeps(s, r, rows);
    case Send(sending, now) => SendKeeps(s, r, sending, now);
    case Commit => CommitKeeps(s, r);
    case Abort => AbortKeeps(s, r);
  }

  // ---------------------------------------------------------------- every step, every run

  lemma StepKeeps(s: State, e: Step)
    requires Inv(s) && Enabled(s, e)
    ensures Inv(Apply(s, e)) && Grows(s, Apply(s, e))
  {
    hide Inv, Grows;
    match e
    case Api(api) => ApiKeeps(s, api);
    case Relaying(r, relayed) => RelayKeeps(s, r, relayed);
    case Items(onItems) => ItemsQueueKeeps(s, onItems);
    case Working(w, worked) => WorkKeeps(s, w, worked);
    case Results(onResults) => ResultsQueueKeeps(s, onResults);
    case Consuming(c, consumed) => ConsumeKeeps(s, c, consumed);
  }

  lemma {:induction false} RunKeeps(s: State, steps: seq<Step>, end: State)
    requires Inv(s) && Run(s, steps, end)
    ensures Inv(end)
    decreases steps
  {
    hide Inv, Grows, Enabled, Apply;
    if steps == [] {
    } else {
      StepKeeps(s, steps[0]);
      RunKeeps(Apply(s, steps[0]), steps[1..], end);
    }
  }

  lemma ReachableKeeps(s: State)
    requires Reachable(s)
    ensures Inv(s)
  {
    var steps :| Run(START, steps, s);
    RunKeeps(START, steps, s);
  }
}
