/** The event pipeline as a state machine whose steps are single operations: one transaction,
    one statement, one queue call.  Any number of relays, workers and consumers interleave,
    and every one of them may die between any two of its steps. */
module Pipeline {
  import opened Options
  import opened Events

  type ItemId = int
  type RowId = nat
  type MessageId = nat

  const RELAY_BATCH := 20
  const RECEIVE_BATCH := 10

  // ---------------------------------------------------------------- data

  /** Where the queue holds a message: waiting, delivered and not yet deleted, or set aside. */
  datatype Place = Visible | InFlight | Dead

  datatype Message = Message(body: Body, place: Place)

  /** A queue, with every body it was ever given. */
  datatype Queue = Queue(messages: map<MessageId, Message>, log: map<MessageId, Body>)

  datatype Row = Row(payload: Json, publishedAt: Option<int>, attempts: nat)

  datatype Receipt = Receipt(at: string, worker: string, request: string)

  datatype Projection = Projection(at: string, worker: string, request: Option<string>)

  datatype Delivery = Delivery(id: MessageId, body: Body)

  /** A relay's open transaction: the rows it locked, how many it has tried, and the rows it
      has changed in its session and not yet committed. */
  datatype Pass = Pass(rows: seq<RowId>, tried: nat, changed: map<RowId, Row>)

  datatype WorkerStep =
    | Resting
    | Parsed(message: MessageId, item: ItemId, request: string)
    | Conflicted(message: MessageId, item: ItemId, request: string)
    | Receipted(message: MessageId, item: ItemId, request: string, at: string, worker: string)
    | Reported(message: MessageId, item: ItemId)

  datatype Worker = Worker(batch: seq<Delivery>, step: WorkerStep)

  datatype ConsumerStep =
    | Waiting
    | Understood(message: MessageId, report: Report)
    | Recorded(message: MessageId, item: ItemId)

  datatype Consumer = Consumer(batch: seq<Delivery>, step: ConsumerStep)

  datatype State = State(
    items: map<ItemId, string>,           // demo_items: the live items and their names
    created: set<ItemId>,                 // every item ever made by create_item
    nextItem: ItemId,                     // the id sequence, which never goes back
    outbox: map<RowId, Row>,
    nextRow: RowId,
    relays: map<nat, Pass>,               // the relays in the middle of a pass
    itemsQueue: Queue,
    workers: map<string, Worker>,
    receipts: map<ItemId, Receipt>,       // the worker's own table
    resultsQueue: Queue,
    consumers: map<nat, Consumer>,
    projection: map<ItemId, Projection>)  // item_processing

  const START := State(map[], {}, 1, map[], 0, map[], Queue(map[], map[]), map[], map[],
                       Queue(map[], map[]), map[], map[])

  // ---------------------------------------------------------------- steps

  /** What one SendMessage did: the copies the queue kept, and whether the caller heard so. */
  datatype Sending = Sending(copies: seq<MessageId>, returned: bool)

  datatype ApiStep =
    | Create(name: string, createdAt: string, request: Option<string>)
    | Rollback                             // a create that died before its commit
    | Seed(name: string)
    | Rename(item: ItemId, newName: string)
    | Delete(item: ItemId)

  datatype RelayStep =
    | Select(rows: seq<RowId>)
    | Send(sending: Sending, now: int)
    | Commit
    | Abort

  datatype QueueStep =
    | Timeout(id: MessageId)               // the visibility timeout ran out
    | SetAside(id: MessageId)              // the redrive policy moved it to the dead letters
    | Redrive(id: MessageId)               // somebody moved it back
    | Foreign(id: MessageId, body: Body)   // somebody else sent something

  datatype WorkStep =
    | Receive(ids: seq<MessageId>)
    | Begin
    | InsertReceipt(at: string)
    | ReadReceipt
    | SendReport(report: Sending)
    | DeleteMessage
    | GiveUp                               // the database or the queue refused; message left
    | Die

  datatype ConsumeStep =
    | Fetch(ids: seq<MessageId>)
    | Understand
    | Record
    | DeleteReport
    | LeaveReport
    | Stop

  datatype Step =
    | Api(api: ApiStep)
    | Relaying(relay: nat, relayed: RelayStep)
    | Items(onItems: QueueStep)
    | Working(worker: string, worked: WorkStep)
    | Results(onResults: QueueStep)
    | Consuming(consumer: nat, consumed: ConsumeStep)

  // ---------------------------------------------------------------- queues

  predicate IsSending(q: Queue, sending: Sending) {
    && (sending.returned ==> sending.copies != [])
    && (forall k | 0 <= k < |sending.copies| :: sending.copies[k] !in q.log)
    && (forall j, k | 0 <= j < k < |sending.copies| :: sending.copies[j] != sending.copies[k])
  }

  function Enqueue(q: Queue, body: Body, copies: seq<MessageId>): Queue {
    Queue(q.messages + (map id | id in copies :: Message(body, Visible)),
          q.log + (map id | id in copies :: body))
  }

  predicate IsReceive(q: Queue, ids: seq<MessageId>) {
    && |ids| <= RECEIVE_BATCH
    && (forall k | 0 <= k < |ids| :: ids[k] in q.messages && q.messages[ids[k]].place == Visible)
    && (forall j, k | 0 <= j < k < |ids| :: ids[j] != ids[k])
  }

  function Deliver(q: Queue, ids: seq<MessageId>): Queue {
    q.(messages := map id | id in q.messages ::
         if id in ids then q.messages[id].(place := InFlight) else q.messages[id])
  }

  function Deliveries(q: Queue, ids: seq<MessageId>): seq<Delivery>
    requires forall id | id in ids :: id in q.messages
  {
    seq(|ids|, k requires 0 <= k < |ids| => Delivery(ids[k], q.messages[ids[k]].body))
  }

  /** DeleteMessage: takes the message off its queue, unless it is gone or already set aside. */
  function Remove(q: Queue, id: MessageId): Queue {
    if id in q.messages && q.messages[id].place != Dead then q.(messages := q.messages - {id}) else q
  }

  predicate QueueEnabled(q: Queue, poison: Body -> bool, e: QueueStep) {
    match e
    case Timeout(id) => id in q.messages && q.messages[id].place == InFlight
    case SetAside(id) => id in q.messages && q.messages[id].place != Dead
    case Redrive(id) => id in q.messages && q.messages[id].place == Dead
    case Foreign(id, body) => id !in q.log && poison(body)
  }

  function QueueApply(q: Queue, e: QueueStep): Queue {
    match e
    case Timeout(id) => Move(q, id, Visible)
    case SetAside(id) => Move(q, id, Dead)
    case Redrive(id) => Move(q, id, Visible)
    case Foreign(id, body) => Enqueue(q, body, [id])
  }

  function Move(q: Queue, id: MessageId, place: Place): Queue {
    if id in q.messages then q.(messages := q.messages[id := q.messages[id].(place := place)]) else q
  }

  predicate IsItemPoison(body: Body) { ParseItemCreated(body).Poison? }

  predicate IsReportPoison(body: Body) { ParseItemProcessed(body).Poison? }

  // ---------------------------------------------------------------- the api

  predicate NameTaken(s: State, name: string) {
    exists i :: i in s.items && s.items[i] == name
  }

  /** `create_item`: the item and its event in one transaction.  A duplicate name rolls both
      back, and the id it drew is lost. */
  function CreateItem(s: State, name: string, createdAt: string, request: Option<string>): State {
    var taken := NameTaken(s, name);
    var row := Row(ItemCreatedEvent(s.nextItem, name, createdAt, request), None, 0);
    s.(items := if taken then s.items else s.items[s.nextItem := name],
       created := if taken then s.created else s.created + {s.nextItem},
       nextItem := s.nextItem + 1,
       outbox := if taken then s.outbox else s.outbox[s.nextRow := row],
       nextRow := if taken then s.nextRow else s.nextRow + 1)
  }

  /** The seed script's item: no event goes with it. */
  function SeedItem(s: State, name: string): State {
    var taken := NameTaken(s, name);
    s.(items := if taken then s.items else s.items[s.nextItem := name],
       nextItem := if taken then s.nextItem else s.nextItem + 1)
  }

  /** `update_item`: not found, a name somebody else has, or the new name. */
  function RenameItem(s: State, item: ItemId, name: string): State {
    var refused := item !in s.items || (s.items[item] != name && NameTaken(s, name));
    s.(items := if refused then s.items else s.items[item := name])
  }

  /** `delete_item`: the projection goes with the item. */
  function DeleteItem(s: State, item: ItemId): State {
    s.(items := s.items - {item}, projection := s.projection - {item})
  }

  function ApiApply(s: State, e: ApiStep): State {
    match e
    case Create(name, createdAt, request) => CreateItem(s, name, createdAt, request)
    case Rollback => s.(nextItem := s.nextItem + 1)
    case Seed(name) => SeedItem(s, name)
    case Rename(item, newName) => RenameItem(s, item, newName)
    case Delete(item) => DeleteItem(s, item)
  }

  // ---------------------------------------------------------------- the relay

  predicate Unlocked(s: State, row: RowId) {
    forall r | r in s.relays :: row !in s.relays[r].rows
  }

  predicate Selectable(s: State, row: RowId) {
    row in s.outbox && s.outbox[row].publishedAt.None? && Unlocked(s, row)
  }

  /** Unpublished rows nobody else has locked, oldest first, at most a batch, none passed over. */
  predicate IsSelection(s: State, rows: seq<RowId>) {
    && |rows| <= RELAY_BATCH
    && (forall k | 0 <= k < |rows| :: Selectable(s, rows[k]))
    && (forall j, k | 0 <= j < k < |rows| :: rows[j] < rows[k])
    && (forall row | row in s.outbox && Selectable(s, row) && row !in rows ::
          |rows| == RELAY_BATCH && rows[|rows| - 1] < row)
  }

  predicate RelayEnabled(s: State, r: nat, e: RelayStep) {
    match e
    case Select(rows) => r !in s.relays && rows != [] && IsSelection(s, rows)
    case Send(sending, _) => CanSend(s, r) && IsSending(s.itemsQueue, sending)
    case Commit => r in s.relays && s.relays[r].tried == |s.relays[r].rows|
    case Abort => r in s.relays
  }

  /** What `relay_batch` does to one row in the session. */
  function Tried(row: Row, returned: bool, now: int): Row {
    row.(attempts := row.attempts + 1, publishedAt := if returned then Some(now) else row.publishedAt)
  }

  predicate Marked(p: Pass, row: RowId) {
    row in p.changed && p.changed[row].publishedAt.Some?
  }

  /** The row a pass has come to. */
  function Current(p: Pass): RowId
    requires p.tried < |p.rows|
  {
    p.rows[p.tried]
  }

  predicate CanSend(s: State, r: nat) {
    r in s.relays && s.relays[r].tried < |s.relays[r].rows| && Current(s.relays[r]) in s.outbox
  }

  /** Sending the current row: the queue takes some copies, the session marks the row if the
      call returned, and counts the attempt either way. */
  function SendRow(s: State, r: nat, sending: Sending, now: int): State
    requires CanSend(s, r)
  {
    var p := s.relays[r];
    var id := Current(p);
    s.(itemsQueue := Enqueue(s.itemsQueue, Decoded(s.outbox[id].payload), sending.copies),
       relays := s.relays[r := Pass(p.rows, p.tried + 1, p.changed[id := Tried(s.outbox[id], sending.returned, now)])])
  }

  function CommitPass(s: State, r: nat): State
    requires r in s.relays
  {
    s.(outbox := s.outbox + s.relays[r].changed, relays := s.relays - {r})
  }

  /** A pass that dies leaves its rows as they were, whatever it sent. */
  function AbortPass(s: State, r: nat): State
    requires r in s.relays
  {
    s.(relays := s.relays - {r})
  }

  function RelayApply(s: State, r: nat, e: RelayStep): State
    requires RelayEnabled(s, r, e)
  {
    match e
    case Select(rows) => s.(relays := s.relays[r := Pass(rows, 0, map[])])
    case Send(sending, now) => SendRow(s, r, sending, now)
    case Commit => CommitPass(s, r)
    case Abort => AbortPass(s, r)
  }

  // ---------------------------------------------------------------- the worker

  function WorkerOf(s: State, w: string): Worker {
    if w in s.workers then s.workers[w] else Worker([], Resting)
  }

  predicate WorkEnabled(s: State, w: string, e: WorkStep) {
    var me := WorkerOf(s, w);
    match e
    case Receive(ids) => me == Worker([], Resting) && IsReceive(s.itemsQueue, ids)
    case Begin => me.step.Resting? && me.batch != []
    case InsertReceipt(at) => me.step.Parsed? && at != ""
    case ReadReceipt => me.step.Conflicted? && me.step.item in s.receipts
    case SendReport(report) => me.step.Receipted? && IsSending(s.resultsQueue, report)
    case DeleteMessage => me.step.Reported?
    case GiveUp => true
    case Die => true
  }

  /** Poison is left where it is; anything else names an item. */
  function Opened(d: Delivery): WorkerStep {
    match ParseItemCreated(d.body)
    case Poison => Resting
    case Ok(c) => Parsed(d.id, c.item, c.request)
  }

  /** The receipt of an earlier delivery, with its time and its name. */
  function ReadBack(me: Worker, receipt: Receipt): Worker
    requires me.step.Conflicted?
  {
    me.(step := Receipted(me.step.message, me.step.item, me.step.request, receipt.at, receipt.worker))
  }

  /** The one statement: a receipt for the item, unless an earlier delivery wrote it. */
  function WriteReceipt(s: State, w: string, me: Worker, at: string): State
    requires me.step.Parsed?
  {
    var Parsed(message, item, request) := me.step;
    var first := item !in s.receipts;
    s.(receipts := if first then s.receipts[item := Receipt(at, w, request)] else s.receipts,
       workers := s.workers[w := me.(step := if first then Receipted(message, item, request, at, w)
                                             else Conflicted(message, item, request))])
  }

  function ReportBody(step: WorkerStep): Body
    requires step.Receipted?
  {
    Decoded(ItemProcessedMessage(step.item, step.at, step.worker, step.request))
  }

  function Publish(s: State, w: string, me: Worker, report: Sending): State
    requires me.step.Receipted?
  {
    s.(resultsQueue := Enqueue(s.resultsQueue, ReportBody(me.step), report.copies),
       workers := s.workers[w := me.(step := if report.returned then Reported(me.step.message, me.step.item) else Resting)])
  }

  /** One operation of `Worker.handle`.  A worker's name is never empty: it is the container's
      hostname when nothing else says. */
  function WorkApply(s: State, w: string, e: WorkStep): State
    requires WorkEnabled(s, w, e)
  {
    var me := WorkerOf(s, w);
    match e
    case Receive(ids) =>
      s.(itemsQueue := Deliver(s.itemsQueue, ids),
         workers := s.workers[w := Worker(Deliveries(s.itemsQueue, ids), Resting)])
    case Begin =>
      s.(workers := s.workers[w := Worker(me.batch[1..], Opened(me.batch[0]))])
    case InsertReceipt(at) => WriteReceipt(s, w, me, at)
    case ReadReceipt =>
      s.(workers := s.workers[w := ReadBack(me, s.receipts[me.step.item])])
    case SendReport(report) => Publish(s, w, me, report)
    case DeleteMessage =>
      s.(itemsQueue := Remove(s.itemsQueue, me.step.message),
         workers := s.workers[w := me.(step := Resting)])
    case GiveUp => s.(workers := s.workers[w := me.(step := Resting)])
    case Die => s.(workers := s.workers - {w})
  }

  // ---------------------------------------------------------------- the consumer

  function ConsumerOf(s: State, c: nat): Consumer {
    if c in s.consumers then s.consumers[c] else Consumer([], Waiting)
  }

  predicate ConsumeEnabled(s: State, c: nat, e: ConsumeStep) {
    var me := ConsumerOf(s, c);
    match e
    case Fetch(ids) => me == Consumer([], Waiting) && IsReceive(s.resultsQueue, ids)
    case Understand => me.step.Waiting? && me.batch != []
    case Record => me.step.Understood?
    case DeleteReport => me.step.Recorded?
    case LeaveReport => true
    case Stop => true
  }

  function Parse(d: Delivery): ConsumerStep {
    match ParseItemProcessed(d.body)
    case Poison => Waiting
    case Ok(report) => Understood(d.id, report)
  }

  /** `record`: the insert meets the foreign key ("gone"), an earlier row ("already"), or neither
      ("recorded"). */
  function RecordReport(s: State, report: Report): map<ItemId, Projection> {
    if report.item !in s.items || report.item in s.projection then s.projection
    else s.projection[report.item := Projection(report.at, report.worker, report.request)]
  }

  function RecordStep(s: State, c: nat, me: Consumer): State
    requires me.step.Understood?
  {
    s.(projection := RecordReport(s, me.step.report),
       consumers := s.consumers[c := me.(step := Recorded(me.step.message, me.step.report.item))])
  }

  function DropReport(s: State, c: nat, me: Consumer): State
    requires me.step.Recorded?
  {
    s.(resultsQueue := Remove(s.resultsQueue, me.step.message), consumers := s.consumers[c := me.(step := Waiting)])
  }

  function ConsumeApply(s: State, c: nat, e: ConsumeStep): State
    requires ConsumeEnabled(s, c, e)
  {
    var me := ConsumerOf(s, c);
    match e
    case Fetch(ids) =>
      s.(resultsQueue := Deliver(s.resultsQueue, ids),
         consumers := s.consumers[c := Consumer(Deliveries(s.resultsQueue, ids), Waiting)])
    case Understand =>
      s.(consumers := s.consumers[c := Consumer(me.batch[1..], Parse(me.batch[0]))])
    case Record => RecordStep(s, c, me)
    case DeleteReport => DropReport(s, c, me)
    case LeaveReport => s.(consumers := s.consumers[c := me.(step := Waiting)])
    case Stop => s.(consumers := s.consumers - {c})
  }

  // ---------------------------------------------------------------- runs

  predicate Enabled(s: State, e: Step) {
    match e
    case Api(api) => true
    case Relaying(r, relayed) => RelayEnabled(s, r, relayed)
    case Items(onItems) => QueueEnabled(s.itemsQueue, IsItemPoison, onItems)
    case Working(w, worked) => w != "" && WorkEnabled(s, w, worked)
    case Results(onResults) => QueueEnabled(s.resultsQueue, IsReportPoison, onResults)
    case Consuming(c, consumed) => ConsumeEnabled(s, c, consumed)
  }

  function Apply(s: State, e: Step): State
    requires Enabled(s, e)
  {
    match e
    case Api(api) => ApiApply(s, api)
    case Relaying(r, relayed) => RelayApply(s, r, relayed)
    case Items(onItems) => s.(itemsQueue := QueueApply(s.itemsQueue, onItems))
    case Working(w, worked) => WorkApply(s, w, worked)
    case Results(onResults) => s.(resultsQueue := QueueApply(s.resultsQueue, onResults))
    case Consuming(c, consumed) => ConsumeApply(s, c, consumed)
  }

  /** `steps` can be taken from `s`, one after the other, and lead to `end`. */
  predicate Run(s: State, steps: seq<Step>, end: State)
    decreases steps
  {
    if steps == [] then s == end
    else Enabled(s, steps[0]) && Run(Apply(s, steps[0]), steps[1..], end)
  }

  ghost predicate Reachable(s: State) {
    exists steps: seq<Step> :: Run(START, steps, s)
  }

  lemma {:induction false} RunConcat(s: State, first: seq<Step>, mid: State, second: seq<Step>, end: State)
    requires Run(s, first, mid) && Run(mid, second, end)
    ensures Run(s, first + second, end)
    decreases first
  {
    if first == [] {
      assert first + second == second;
    } else {
      RunConcat(Apply(s, first[0]), first[1..], mid, second, end);
      assert (first + second)[1..] == first[1..] + second;
    }
  }
}
