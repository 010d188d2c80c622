/** The processes themselves, in the form they are written in: a worker with its counters, a relay
    that mutates the rows it was handed, a consumer, and the request that makes an item.  Each is
    proved to take only steps of the machine, so what every step keeps, they keep. */
module PipelineProcesses {
  import opened Options
  import opened Events
  import opened Pipeline

  /** What the processes share, changed by one call at a time. */
  class World {
    var state: State

    constructor ()
      ensures state == START
    {
      state := START;
    }

    method Do(e: Step)
      requires Enabled(state, e)
      modifies this
      ensures state == Apply(old(state), e)
    {
      state := Apply(state, e);
    }
  }

  lemma {:induction false} RunSnoc(s: State, steps: seq<Step>, mid: State, e: Step)
    requires Run(s, steps, mid) && Enabled(mid, e)
    ensures Run(s, steps + [e], Apply(mid, e))
  {
    hide Enabled, Apply;
    assert Run(mid, [e], Apply(mid, e)) by {
      assert [e][1..] == [];
      assert Run(Apply(mid, e), [], Apply(mid, e));
    }
    RunConcat(s, steps, mid, [e], Apply(mid, e));
  }

  /** What a SendMessage did: kept the message and said so, kept it and raised, or lost it. */
  datatype SendAnswer = Kept | KeptAndRaised | Lost

  method Unused(ids: set<MessageId>) returns (id: MessageId)
    ensures id !in ids
  {
    id := 0;
    var rest := ids;
    while rest != {}
      invariant forall x | x in ids :: x in rest || x < id
    {
      var x :| x in rest;
      if x >= id { id := x + 1; }
      rest := rest - {x};
    }
  }

  method SendingFor(q: Queue, answer: SendAnswer) returns (sending: Sending)
    ensures IsSending(q, sending) && sending.returned == answer.Kept?
    ensures |sending.copies| == if answer.Lost? then 0 else 1
  {
    if answer.Lost? { return Sending([], false); }
    var id := Unused(q.log.Keys);
    sending := Sending([id], answer.Kept?);
  }

  // ---------------------------------------------------------------- the worker

  datatype DatabaseAnswer = Answers(now: string) | RefusesBefore | RefusesAfter(now: string)

  /** How one call of `handle` ended. */
  datatype Outcome = LeftPoison | LeftNoReceipt | LeftNoReport | DeletedIt | DiedOnDelete

  class WorkerProcess {
    const name: string
    var connected: bool
    var processed: nat
    var skipped: nat
    var poison: nat

    constructor (name: string)
      ensures this.name == name && !connected && processed == 0 && skipped == 0 && poison == 0
    {
      this.name := name;
      connected := false;
      processed, skipped, poison := 0, 0, 0;
    }

    /** `Worker.receipt`: the receipt written now, or the one an earlier delivery wrote. */
    method Receipt(world: World, now: string, ghost before: seq<Step>, ghost start: State)
      returns (first: bool, ghost steps: seq<Step>)
      requires name != "" && now != "" && WorkerOf(world.state, name).step.Parsed? && Run(start, before, world.state)
      modifies this`connected, world
      ensures Run(start, steps, world.state) && connected
      ensures first == (WorkerOf(old(world.state), name).step.item !in old(world.state).receipts)
      ensures var item := WorkerOf(old(world.state), name).step.item;
              && world.state.receipts ==
                 (if first
                  then old(world.state).receipts[item := Pipeline.Receipt(now, name, WorkerOf(old(world.state), name).step.request)]
                  else old(world.state).receipts)
              && world.state.itemsQueue == old(world.state).itemsQueue && world.state.resultsQueue == old(world.state).resultsQueue
              && WorkerOf(world.state, name).batch == WorkerOf(old(world.state), name).batch
              && WorkerOf(world.state, name).step ==
                 Receipted(WorkerOf(old(world.state), name).step.message, item,
                           WorkerOf(old(world.state), name).step.request,
                           world.state.receipts[item].at, world.state.receipts[item].worker)
    {
      hide Run;
      connected := true;
      var insert := Working(name, InsertReceipt(now));
      RunSnoc(start, before, world.state, insert);
      world.Do(insert);
      steps := before + [insert];
      first := WorkerOf(world.state, name).step.Receipted?;
      if !first {
        var read := Working(name, ReadReceipt);
        RunSnoc(start, steps, world.state, read);
        world.Do(read);
        steps := steps + [read];
      }
    }

    /** `Worker.handle`: parse, receipt, report, delete - in that order, and each only after the one
        before it.  The message is deleted in one outcome out of five. */
    method Handle(world: World, database: DatabaseAnswer, report: SendAnswer, deletes: bool)
      returns (outcome: Outcome, ghost steps: seq<Step>)
      requires name != "" && WorkerOf(world.state, name).step.Resting? && WorkerOf(world.state, name).batch != []
      requires !database.RefusesBefore? ==> database.now != ""
      modifies this, world
      ensures Run(old(world.state), steps, world.state)
      ensures var was, now := old(world.state), world.state;
              var d := WorkerOf(was, name).batch[0];
              && (outcome == LeftPoison <==> IsItemPoison(d.body))
              && (outcome == DeletedIt ==> now.itemsQueue == Remove(was.itemsQueue, d.id))
              && (outcome != DeletedIt ==> now.itemsQueue == was.itemsQueue)
              && (outcome in {LeftPoison, LeftNoReceipt} || report == Lost ==> now.resultsQueue == was.resultsQueue)
              && (outcome in {DeletedIt, DiedOnDelete} ==>
                    var item := ParseItemCreated(d.body).value.item;
                    && item in now.receipts
                    && Reports(was.resultsQueue, now.resultsQueue, item, now.receipts[item].at, now.receipts[item].worker,
                                                     ParseItemCreated(d.body).value.request))
      ensures poison == old(poison) + (if outcome == LeftPoison then 1 else 0)
      ensures outcome in {DeletedIt, DiedOnDelete} ==>
                var was := old(world.state);
                var first := ParseItemCreated(WorkerOf(was, name).batch[0].body).value.item !in was.receipts;
                && processed == old(processed) + (if first then 1 else 0)
                && skipped == old(skipped) + (if first then 0 else 1)
      ensures outcome !in {DeletedIt, DiedOnDelete} ==> processed == old(processed) && skipped == old(skipped)
      ensures outcome == DeletedIt <==>
              !IsItemPoison(WorkerOf(old(world.state), name).batch[0].body) && database.Answers? && report.Kept? && deletes
    {
      hide Run, ParseItemCreated, ItemProcessedMessage, Enqueue, Enabled, Apply, IsItemPoison, Reports, Remove;
      ghost var start := world.state;
      var d := WorkerOf(world.state, name).batch[0];
      steps := Take(world);
      if IsItemPoison(d.body) {
        poison := poison + 1;
        return LeftPoison, steps;
      }
      if database.RefusesBefore? {
        steps := GiveUpNow(world, steps, start);
        return LeftNoReceipt, steps;
      }
      var first;
      first, steps := Receipt(world, database.now, steps, start);
      if database.RefusesAfter? {
        steps := GiveUpNow(world, steps, start);
        return LeftNoReceipt, steps;
      }
      if report != Kept {
        steps := Fail(world, report, steps, start);
        return LeftNoReport, steps;
      }
      steps := Publish(world, steps, start);
      if first { processed := processed + 1; } else { skipped := skipped + 1; }
      steps := Finish(world, deletes, steps, start);
      return if deletes then DeletedIt else DiedOnDelete, steps;
    }

    /** The next message of the batch, read. */
    method Take(world: World) returns (ghost steps: seq<Step>)
      requires name != "" && WorkerOf(world.state, name).step.Resting? && WorkerOf(world.state, name).batch != []
      modifies world
      ensures Run(old(world.state), steps, world.state)
      ensures var was, now := old(world.state), world.state;
              var d := WorkerOf(was, name).batch[0];
              && now.itemsQueue == was.itemsQueue && now.resultsQueue == was.resultsQueue && now.receipts == was.receipts
              && (!IsItemPoison(d.body) ==>
                    var created := ParseItemCreated(d.body).value;
                    WorkerOf(now, name).step == Parsed(d.id, created.item, created.request))
    {
      hide Run, ParseItemCreated;
      ghost var start := world.state;
      assert Run(start, [], start) by { EmptyRun(start); }
      var begin := Working(name, Begin);
      RunSnoc(start, [], start, begin);
      world.Do(begin);
      steps := [] + [begin];
    }

    /** The delete, or the death that stands in for it. */
    method Finish(world: World, deletes: bool, ghost before: seq<Step>, ghost start: State)
      returns (ghost steps: seq<Step>)
      requires name != "" && WorkerOf(world.state, name).step.Reported? && Run(start, before, world.state)
      modifies world
      ensures Run(start, steps, world.state)
      ensures var was, now := old(world.state), world.state;
              && now.itemsQueue == (if deletes then Remove(was.itemsQueue, WorkerOf(was, name).step.message) else was.itemsQueue)
              && now.resultsQueue == was.resultsQueue && now.receipts == was.receipts
    {
      hide Run, Remove;
      var last := Working(name, if deletes then DeleteMessage else Die);
      RunSnoc(start, before, world.state, last);
      world.Do(last);
      steps := before + [last];
    }

    /** The report, sent and heard of. */
    method Publish(world: World, ghost before: seq<Step>, ghost start: State) returns (ghost steps: seq<Step>)
      requires name != "" && WorkerOf(world.state, name).step.Receipted? && Run(start, before, world.state)
      modifies world
      ensures Run(start, steps, world.state)
      ensures var was, now, step := old(world.state), world.state, WorkerOf(old(world.state), name).step;
              && now.itemsQueue == was.itemsQueue && now.receipts == was.receipts
              && WorkerOf(now, name).step == Reported(step.message, step.item)
              && Reports(was.resultsQueue, now.resultsQueue, step.item, step.at, step.worker, step.request)
    {
      hide Run, Enqueue, ItemProcessedMessage;
      var sending := SendingFor(world.state.resultsQueue, Kept);
      var send := Working(name, SendReport(sending));
      RunSnoc(start, before, world.state, send);
      EnqueuedReports(world.state.resultsQueue, ReportBody(WorkerOf(world.state, name).step), sending);
      world.Do(send);
      steps := before + [send];
    }

    /** A report that raised, whether or not the queue kept it: the message is left. */
    method Fail(world: World, report: SendAnswer, ghost before: seq<Step>, ghost start: State)
      returns (ghost steps: seq<Step>)
      requires name != "" && WorkerOf(world.state, name).step.Receipted? && Run(start, before, world.state)
      requires report != Kept
      modifies world
      ensures Run(start, steps, world.state)
      ensures world.state.itemsQueue == old(world.state).itemsQueue && world.state.receipts == old(world.state).receipts
      ensures report == Lost ==> world.state.resultsQueue == old(world.state).resultsQueue
    {
      hide Run, Enqueue, ItemProcessedMessage;
      var sending := SendingFor(world.state.resultsQueue, report);
      var send := Working(name, SendReport(sending));
      RunSnoc(start, before, world.state, send);
      NothingEnqueued(world.state.resultsQueue, ReportBody(WorkerOf(world.state, name).step));
      world.Do(send);
      steps := before + [send];
    }

    /** A refusal leaves the message for the next delivery and drops the connection. */
    method GiveUpNow(world: World, ghost before: seq<Step>, ghost start: State) returns (ghost steps: seq<Step>)
      requires name != "" && Run(start, before, world.state)
      modifies this`connected, world
      ensures Run(start, steps, world.state) && !connected
      ensures world.state ==
              old(world.state).(workers := old(world.state).workers[name := WorkerOf(old(world.state), name).(step := Resting)])
    {
      hide Run;
      connected := false;
      var giveUp := Working(name, GiveUp);
      RunSnoc(start, before, world.state, giveUp);
      world.Do(giveUp);
      steps := before + [giveUp];
    }
  }

  lemma EmptyRun(s: State)
    ensures Run(s, [], s)
  {
  }

  /** The results queue took one more message: the receipt's story. */
  ghost predicate Reports(before: Queue, after: Queue, item: ItemId, at: string, worker: string, request: string) {
    exists id ::
      id !in before.log && after == Enqueue(before, Decoded(ItemProcessedMessage(item, at, worker, request)), [id])
  }

  lemma NothingEnqueued(q: Queue, body: Body)
    ensures Enqueue(q, body, []) == q
  {
    var none: seq<MessageId> := [];
    assert (map id | id in none :: Message(body, Visible)) == map[];
    assert (map id | id in none :: body) == map[];
  }

  lemma EnqueuedReports(q: Queue, body: Body, sending: Sending)
    requires IsSending(q, sending) && |sending.copies| == 1
    ensures sending.copies[0] !in q.log && Enqueue(q, body, sending.copies) == Enqueue(q, body, [sending.copies[0]])
  {
    assert sending.copies == [sending.copies[0]];
  }

  // ---------------------------------------------------------------- the relay

  class OutboxEvent {
    const id: RowId
    const payload: Json
    var publishedAt: Option<int>
    var attempts: nat

    constructor (id: RowId, row: Row)
      ensures this.id == id && Value() == row
    {
      this.id, payload, publishedAt, attempts := id, row.payload, row.publishedAt, row.attempts;
    }

    function Value(): Row
      reads this
    {
      Row(payload, publishedAt, attempts)
    }

    /** What `relay_batch` writes on a row: the mark if the send returned, the attempt always. */
    method Note(returned: bool, now: int)
      modifies this
      ensures Value() == Tried(old(Value()), returned, now)
      ensures publishedAt == (if returned then Some(now) else old(publishedAt)) && attempts == old(attempts) + 1
    {
      if returned { publishedAt := Some(now); }
      attempts := attempts + 1;
    }
  }

  function Ids(rows: seq<OutboxEvent>): seq<RowId> {
    seq(|rows|, k requires 0 <= k < |rows| => rows[k].id)
  }

  /** How many of the first `n` sends returned. */
  function Returned(answers: seq<SendAnswer>, n: nat): nat
    requires n <= |answers|
  {
    if n == 0 then 0 else Returned(answers, n - 1) + if answers[n - 1].Kept? then 1 else 0
  }

  /** The rows of a pass are the outbox's, and each one's id is its own. */
  predicate AreRows(outbox: map<RowId, Row>, ids: seq<RowId>) {
    && (forall k | 0 <= k < |ids| :: ids[k] in outbox)
    && (forall j, k | 0 <= j < k < |ids| :: ids[j] != ids[k])
  }

  /** What a session holds after `n` rows of a pass. */
  function Changes(outbox: map<RowId, Row>, ids: seq<RowId>, answers: seq<SendAnswer>, clock: seq<int>,
                   n: nat): map<RowId, Row>
    requires n <= |ids| == |answers| == |clock| && AreRows(outbox, ids)
  {
    if n == 0 then map[]
    else Changes(outbox, ids, answers, clock, n - 1)[ids[n - 1] := Tried(outbox[ids[n - 1]], answers[n - 1].Kept?, clock[n - 1])]
  }

  lemma {:induction false} ChangesAre(outbox: map<RowId, Row>, ids: seq<RowId>, answers: seq<SendAnswer>,
                                      clock: seq<int>, n: nat)
    requires n <= |ids| == |answers| == |clock| && AreRows(outbox, ids)
    ensures var changed := Changes(outbox, ids, answers, clock, n);
            && (forall id | id in changed :: id in ids)
            && (forall k | 0 <= k < n ::
                  ids[k] in changed && changed[ids[k]] == Tried(outbox[ids[k]], answers[k].Kept?, clock[k]))
  {
    if n == 0 {
    } else {
      ChangesAre(outbox, ids, answers, clock, n - 1);
    }
  }

  /** One call of `send`, and what the session notes about it. */
  method SendOne(world: World, relay: nat, answer: SendAnswer, now: int, ghost before: seq<Step>, ghost start: State)
    returns (returned: bool, ghost steps: seq<Step>)
    requires CanSend(world.state, relay) && Run(start, before, world.state)
    modifies world
    ensures Run(start, steps, world.state) && returned == answer.Kept?
    ensures world.state.outbox == old(world.state).outbox
    ensures var p := old(world.state).relays[relay];
            world.state.relays == old(world.state).relays[relay :=
              Pass(p.rows, p.tried + 1, p.changed[Current(p) := Tried(old(world.state).outbox[Current(p)], returned, now)])]
  {
    hide Run, Enqueue;
    var sending := SendingFor(world.state.itemsQueue, answer);
    var send := Relaying(relay, Send(sending, now));
    RunSnoc(start, before, world.state, send);
    world.Do(send);
    return sending.returned, before + [send];
  }

  lemma NextCanBeSent(s: State, relay: nat, outbox: map<RowId, Row>, ids: seq<RowId>, k: nat)
    requires relay in s.relays && s.relays[relay].rows == ids && s.relays[relay].tried == k < |ids|
    requires s.outbox == outbox && AreRows(outbox, ids)
    ensures CanSend(s, relay) && Current(s.relays[relay]) == ids[k]
  {
  }

  lemma NextChange(outbox: map<RowId, Row>, ids: seq<RowId>, answers: seq<SendAnswer>, clock: seq<int>, k: nat)
    requires k < |ids| == |answers| == |clock| && AreRows(outbox, ids)
    ensures Changes(outbox, ids, answers, clock, k + 1) ==
            Changes(outbox, ids, answers, clock, k)[ids[k] := Tried(outbox[ids[k]], answers[k].Kept?, clock[k])]
  {
  }

  lemma Overwritten(relays: map<nat, Pass>, relay: nat, p: Pass)
    ensures forall q: Pass {:trigger relays[relay := q]} :: relays[relay := p][relay := q] == relays[relay := q]
  {
  }

  /** `relay_batch`: every row is tried once; the ones whose send returned are marked, and every
      one counts the attempt.  Nothing is committed here. */
  method RelayBatch(world: World, relay: nat, rows: seq<OutboxEvent>, answers: seq<SendAnswer>, clock: seq<int>,
                    ghost before: seq<Step>, ghost start: State)
    returns (sent: nat, failed: nat, ghost steps: seq<Step>)
    requires |answers| == |clock| == |rows| && AreRows(world.state.outbox, Ids(rows))
    requires forall j, k | 0 <= j < k < |rows| :: rows[j] != rows[k]
    requires forall k | 0 <= k < |rows| :: rows[k].Value() == world.state.outbox[Ids(rows)[k]]
    requires relay in world.state.relays && world.state.relays[relay] == Pass(Ids(rows), 0, map[])
    requires Run(start, before, world.state)
    modifies rows, world
    ensures Run(start, steps, world.state)
    ensures world.state.outbox == old(world.state).outbox
    ensures world.state.relays == old(world.state).relays[relay :=
              Pass(Ids(rows), |rows|, Changes(old(world.state).outbox, Ids(rows), answers, clock, |rows|))]
    ensures sent + failed == |rows| && sent == Returned(answers, |rows|)
    ensures forall k | 0 <= k < |rows| :: rows[k].Value() == Tried(old(rows[k].Value()), answers[k].Kept?, clock[k])
  {
    hide Run, Changes, Returned, NotedUpTo, Passing, AreRows;
    sent, failed := 0, 0;
    steps := before;
    ghost var outbox, relays := world.state.outbox, world.state.relays;
    BatchBegins(world.state, relay, rows, answers, clock);
    for k := 0 to |rows|
      invariant Run(start, steps, world.state) && world.state.outbox == outbox
      invariant Passing(relays, world.state.relays, relay, Ids(rows), Changes(outbox, Ids(rows), answers, clock, k), k)
      invariant sent + failed == k && sent == Returned(answers, k)
      invariant NotedUpTo(rows, outbox, answers, clock, k)
    {
      NextReturned(answers, k);
      var returned;
      returned, steps := TryRow(world, relay, rows, k, answers, clock, steps, start, relays);
      if returned { sent := sent + 1; } else { failed := failed + 1; }
    }
    BatchEnds(relays, world.state.relays, relay, rows, outbox, answers, clock);
  }

  /** After `k` rows: the first `k` noted, the rest as they were loaded. */
  ghost predicate NotedUpTo(rows: seq<OutboxEvent>, outbox: map<RowId, Row>, answers: seq<SendAnswer>, clock: seq<int>,
                            k: nat)
    requires |answers| == |clock| == |rows| && AreRows(outbox, Ids(rows))
    reads rows
  {
    forall j | 0 <= j < |rows| ::
      rows[j].Value() == if j < k then Tried(outbox[Ids(rows)[j]], answers[j].Kept?, clock[j]) else outbox[Ids(rows)[j]]
  }

  /** Only this relay's pass has moved. */
  predicate Passing(was: map<nat, Pass>, now: map<nat, Pass>, relay: nat, ids: seq<RowId>, changed: map<RowId, Row>,
                    k: nat) {
    now == was[relay := Pass(ids, k, changed)]
  }

  lemma BatchBegins(s: State, relay: nat, rows: seq<OutboxEvent>, answers: seq<SendAnswer>, clock: seq<int>)
    requires |answers| == |clock| == |rows| && AreRows(s.outbox, Ids(rows))
    requires forall k | 0 <= k < |rows| :: rows[k].Value() == s.outbox[Ids(rows)[k]]
    requires relay in s.relays && s.relays[relay] == Pass(Ids(rows), 0, map[])
    ensures Passing(s.relays, s.relays, relay, Ids(rows), Changes(s.outbox, Ids(rows), answers, clock, 0), 0)
    ensures NotedUpTo(rows, s.outbox, answers, clock, 0) && Returned(answers, 0) == 0
  {
  }

  lemma BatchEnds(was: map<nat, Pass>, now: map<nat, Pass>, relay: nat, rows: seq<OutboxEvent>, outbox: map<RowId, Row>,
                  answers: seq<SendAnswer>, clock: seq<int>)
    requires |answers| == |clock| == |rows| && AreRows(outbox, Ids(rows))
    requires NotedUpTo(rows, outbox, answers, clock, |rows|)
    requires Passing(was, now, relay, Ids(rows), Changes(outbox, Ids(rows), answers, clock, |rows|), |rows|)
    ensures now == was[relay := Pass(Ids(rows), |rows|, Changes(outbox, Ids(rows), answers, clock, |rows|))]
    ensures forall k | 0 <= k < |rows| ::
              Ids(rows)[k] in outbox && rows[k].Value() == Tried(outbox[Ids(rows)[k]], answers[k].Kept?, clock[k])
  {
  }

  lemma NextReturned(answers: seq<SendAnswer>, k: nat)
    requires k < |answers|
    ensures Returned(answers, k + 1) == Returned(answers, k) + if answers[k].Kept? then 1 else 0
  {
  }

  /** One row of the batch: sent, and noted in place. */
  method TryRow(world: World, relay: nat, rows: seq<OutboxEvent>, k: nat, answers: seq<SendAnswer>, clock: seq<int>,
                ghost before: seq<Step>, ghost start: State, ghost relays: map<nat, Pass>)
    returns (returned: bool, ghost steps: seq<Step>)
    requires k < |rows| == |answers| == |clock| && AreRows(world.state.outbox, Ids(rows))
    requires forall i, j | 0 <= i < j < |rows| :: rows[i] != rows[j]
    requires Run(start, before, world.state) && NotedUpTo(rows, world.state.outbox, answers, clock, k)
    requires Passing(relays, world.state.relays, relay, Ids(rows),
                     Changes(world.state.outbox, Ids(rows), answers, clock, k), k)
    modifies rows, world
    ensures Run(start, steps, world.state) && world.state.outbox == old(world.state).outbox
    ensures returned == answers[k].Kept?
    ensures NotedUpTo(rows, world.state.outbox, answers, clock, k + 1)
    ensures Passing(relays, world.state.relays, relay, Ids(rows),
                    Changes(world.state.outbox, Ids(rows), answers, clock, k + 1), k + 1)
  {
    hide Run, Enqueue, SendRow, Tried, Changes, CanSend;
    ghost var outbox, ids := world.state.outbox, Ids(rows);
    NextCanBeSent(world.state, relay, outbox, ids, k);
    NextChange(outbox, ids, answers, clock, k);
    returned, steps := SendOne(world, relay, answers[k], clock[k], before, start);
    Overwritten(relays, relay, Pass(ids, k, Changes(outbox, ids, answers, clock, k)));
    rows[k].Note(returned, clock[k]);
  }

  /** `relay_once`: lock, send, commit.  A pass that dies before its commit leaves the outbox as it
      was; a pass that commits writes exactly what the batch did to its rows. */
  method RelayOnce(world: World, relay: nat, ids: seq<RowId>, answers: seq<SendAnswer>, clock: seq<int>, commits: bool)
    returns (sent: nat, failed: nat, ghost steps: seq<Step>)
    requires relay !in world.state.relays && IsSelection(world.state, ids) && |answers| == |clock| == |ids|
    modifies world
    ensures Run(old(world.state), steps, world.state)
    ensures sent + failed == |ids| && sent == Returned(answers, |ids|)
    ensures world.state.relays == old(world.state).relays && AreRows(old(world.state).outbox, ids)
    ensures world.state.outbox == if commits
                                  then old(world.state).outbox + Changes(old(world.state).outbox, ids, answers, clock, |ids|)
                                  else old(world.state).outbox
  {
    hide Run, Changes, Enabled, Apply, AreRows, IsSelection;
    ghost var start := world.state;
    SelectionIsRows(start, ids);
    if ids == [] {
      EmptyRun(start);
      assert Changes(start.outbox, ids, answers, clock, 0) == map[] by { NoChanges(start.outbox, ids, answers, clock); }
      return 0, 0, [];
    }
    steps := OpenPass(world, relay, ids);
    var rows := Load(world.state.outbox, ids);
    assert Ids(rows) == ids;
    sent, failed, steps := RelayBatch(world, relay, rows, answers, clock, steps, start);
    steps := ClosePass(world, relay, commits, steps, start);
  }

  lemma SelectionIsRows(s: State, ids: seq<RowId>)
    requires IsSelection(s, ids)
    ensures AreRows(s.outbox, ids) && forall k | 0 <= k < |ids| :: ids[k] in s.outbox
  {
  }

  /** The selecting statement: the rows are locked. */
  method OpenPass(world: World, relay: nat, ids: seq<RowId>) returns (ghost steps: seq<Step>)
    requires relay !in world.state.relays && IsSelection(world.state, ids) && ids != []
    modifies world
    ensures Run(old(world.state), steps, world.state) && world.state.outbox == old(world.state).outbox
    ensures world.state.relays == old(world.state).relays[relay := Pass(ids, 0, map[])]
  {
    hide Run;
    ghost var start := world.state;
    assert Run(start, [], start) by { EmptyRun(start); }
    var select := Relaying(relay, Select(ids));
    RunSnoc(start, [], start, select);
    world.Do(select);
    steps := [] + [select];
  }

  /** The commit, or the death that stands in for it. */
  method ClosePass(world: World, relay: nat, commits: bool, ghost before: seq<Step>, ghost start: State)
    returns (ghost steps: seq<Step>)
    requires relay in world.state.relays && relay !in start.relays && Run(start, before, world.state)
    requires world.state.relays[relay].tried == |world.state.relays[relay].rows|
    requires world.state.relays == start.relays[relay := world.state.relays[relay]]
    modifies world
    ensures Run(start, steps, world.state) && world.state.relays == start.relays
    ensures world.state.outbox == if commits then old(world.state).outbox + old(world.state).relays[relay].changed
                                  else old(world.state).outbox
  {
    hide Run;
    var last := Relaying(relay, if commits then Commit else Abort);
    RunSnoc(start, before, world.state, last);
    world.Do(last);
    steps := before + [last];
    assert world.state.relays == start.relays;
  }

  lemma NoChanges(outbox: map<RowId, Row>, ids: seq<RowId>, answers: seq<SendAnswer>, clock: seq<int>)
    requires |ids| == |answers| == |clock| && AreRows(outbox, ids)
    ensures Changes(outbox, ids, answers, clock, 0) == map[]
  {
  }

  method Load(outbox: map<RowId, Row>, ids: seq<RowId>) returns (rows: seq<OutboxEvent>)
    requires forall k | 0 <= k < |ids| :: ids[k] in outbox
    ensures |rows| == |ids| && (forall k | 0 <= k < |rows| :: rows[k].id == ids[k] && rows[k].Value() == outbox[ids[k]])
    ensures forall k | 0 <= k < |rows| :: fresh(rows[k])
    ensures forall j, k | 0 <= j < k < |rows| :: rows[j] != rows[k]
  {
    rows := [];
    for k := 0 to |ids|
      invariant |rows| == k && (forall j | 0 <= j < k :: rows[j].id == ids[j] && rows[j].Value() == outbox[ids[j]])
      invariant forall j | 0 <= j < k :: fresh(rows[j])
      invariant forall i, j | 0 <= i < j < k :: rows[i] != rows[j]
    {
      var row := new OutboxEvent(ids[k], outbox[ids[k]]);
      rows := rows + [row];
    }
  }

  // ---------------------------------------------------------------- the consumer

  datatype RecordOutcome = WasRecorded | Already | Gone

  datatype ConsumeOutcome = LeftPoisonReport | LeftForLater | Handled(what: RecordOutcome) | StoppedOnDelete(what: RecordOutcome)

  /** `record`: one insert, and the three things a report can meet. */
  method Record(world: World, consumer: nat) returns (outcome: RecordOutcome)
    requires ConsumerOf(world.state, consumer).step.Understood?
    modifies world
    ensures world.state == Apply(old(world.state), Consuming(consumer, ConsumeStep.Record))
    ensures var report := ConsumerOf(old(world.state), consumer).step.report;
            && (outcome == Gone <==> report.item !in old(world.state).items)
            && (outcome == Already <==> report.item in old(world.state).items && report.item in old(world.state).projection)
            && (outcome == WasRecorded ==>
                  world.state.projection ==
                      old(world.state).projection[report.item := Projection(report.at, report.worker, report.request)])
            && (outcome != WasRecorded ==> world.state.projection == old(world.state).projection)
  {
    var report := ConsumerOf(world.state, consumer).step.report;
    outcome := if report.item !in world.state.items then Gone
               else if report.item in world.state.projection then Already else WasRecorded;
    world.Do(Consuming(consumer, ConsumeStep.Record));
  }

  /** `Consumer.handle`: parse, record, delete. */
  method HandleReport(world: World, consumer: nat, database: DatabaseAnswer, deletes: bool)
    returns (outcome: ConsumeOutcome, ghost steps: seq<Step>)
    requires ConsumerOf(world.state, consumer).step.Waiting? && ConsumerOf(world.state, consumer).batch != []
    modifies world
    ensures Run(old(world.state), steps, world.state)
    ensures var was, now := old(world.state), world.state;
            var d := ConsumerOf(was, consumer).batch[0];
            && (outcome == LeftPoisonReport <==> IsReportPoison(d.body))
            && now.resultsQueue == (if outcome.Handled? then Remove(was.resultsQueue, d.id) else was.resultsQueue)
            && (outcome == LeftPoisonReport || (outcome == LeftForLater && database.RefusesBefore?) ==>
                  now.projection == was.projection)
            && (outcome.Handled? || outcome.StoppedOnDelete? ==>
                  now.projection == RecordReport(was, ParseItemProcessed(d.body).value))
            && (outcome == LeftForLater && database.RefusesAfter? ==>
                  now.projection == RecordReport(was, ParseItemProcessed(d.body).value))
  {
    hide Run, ParseItemProcessed;
    ghost var start := world.state;
    var d := ConsumerOf(world.state, consumer).batch[0];
    assert Run(start, [], start) by { EmptyRun(start); }
    var read := Consuming(consumer, Understand);
    RunSnoc(start, [], start, read);
    world.Do(read);
    steps := [] + [read];
    if IsReportPoison(d.body) { return LeftPoisonReport, steps; }
    if !database.RefusesBefore? {
      var insert := Consuming(consumer, ConsumeStep.Record);
      RunSnoc(start, steps, world.state, insert);
      var what := Record(world, consumer);
      steps := steps + [insert];
      if database.Answers? {
        var last := Consuming(consumer, if deletes then DeleteReport else Stop);
        RunSnoc(start, steps, world.state, last);
        world.Do(last);
        return if deletes then Handled(what) else StoppedOnDelete(what), steps + [last];
      }
    }
    var leave := Consuming(consumer, LeaveReport);
    RunSnoc(start, steps, world.state, leave);
    world.Do(leave);
    return LeftForLater, steps + [leave];
  }

  // ---------------------------------------------------------------- the request

  /** `create_item`: flush draws the id and meets the unique name; the event goes into the same
      transaction; the commit writes both rows, the rollback neither. */
  method CreateItemRequest(world: World, name: string, createdAt: string, request: Option<string>, survives: bool)
    returns (created: Option<ItemId>)
    modifies world
    ensures world.state == Apply(old(world.state), Api(if survives then Create(name, createdAt, request) else Rollback))
    ensures created.Some? <==> survives && !NameTaken(old(world.state), name)
    ensures created.Some? ==>
              var id, row := created.value, old(world.state).nextRow;
              && world.state.items == old(world.state).items[id := name]
              && world.state.outbox == old(world.state).outbox[row := Row(ItemCreatedEvent(id, name, createdAt, request), None, 0)]
    ensures created.None? ==>
            world.state.items == old(world.state).items && world.state.outbox == old(world.state).outbox
  {
    var s := world.state;
    var id := s.nextItem;
    s := s.(nextItem := id + 1);
    if NameTaken(s, name) || !survives {
      world.state := s;
      return None;
    }
    var staged := s.(items := s.items[id := name], created := s.created + {id});
    staged := staged.(outbox := staged.outbox[s.nextRow := Row(ItemCreatedEvent(id, name, createdAt, request), None, 0)],
                      nextRow := s.nextRow + 1);
    world.state := staged;
    return Some(id);
  }
}
