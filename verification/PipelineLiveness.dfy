/** From every reachable state - passes open, poison lying about, dead letters, workers half way - the
    system's own steps can finish all the work there is: nothing the processes did, and no place they
    died in, blocks it. */
module PipelineLiveness {
  import opened Events
  import opened Pipeline
  import opened PipelineSafety
  import opened PipelineTheorems
  import opened PipelineDrain

  /** A run of the system's own steps that leaves the items as they are. */
  ghost predicate Onward(s: State, steps: seq<Step>, t: State) {
    Run(s, steps, t) && Inv(t) && (NoPoison(s) ==> NoPoison(t)) && t.items == s.items && t.created == s.created
  }

  lemma OnwardConcat(s: State, first: seq<Step>, mid: State, second: seq<Step>, t: State)
    requires Onward(s, first, mid) && Onward(mid, second, t)
    ensures Onward(s, first + second, t)
  {
    hide Inv, NoPoison, Enabled, Apply;
    RunConcat(s, first, mid, second, t);
  }

  /** One step that is not a request keeps the items. */
  lemma OneStep(s: State, e: Step)
    requires Inv(s) && Enabled(s, e) && !e.Api? && !IsForeign(e)
    ensures Onward(s, [e], Apply(s, e)) && WorkLeft(Apply(s, e)) == WorkLeft(s) + Added(s, e)
  {
    hide Inv, NoPoison, Enabled, Apply, WorkLeft, Added, IsForeign;
    StepKeeps(s, e);
    if NoPoison(s) { NoNewPoison(s, e); }
    WorkBalance(s, e);
    OnlyRequestsTouchItems(s, e);
    assert [e][1..] == [];
    assert Run(Apply(s, e), [], Apply(s, e));
  }

  lemma Unused(ids: set<MessageId>) returns (id: MessageId)
    ensures id !in ids
  {
    id := 0;
    var rest := ids;
    while rest != {}
      invariant forall x | x in ids :: x in rest || x < id
    {
      var x :| x in rest;
      if x >= id { id := x + 1; }
      rest := rest - {x};
    }
  }

  // ---------------------------------------------------------------- one report

  const CONSUMER := 0

  /** The report is waiting, and the consumer that will take it is idle. */
  predicate ReportReady(s: State, id: MessageId) {
    && id in s.resultsQueue.messages && s.resultsQueue.messages[id].place == Visible
    && ConsumerOf(s, CONSUMER) == Consumer([], Waiting)
  }

  function WakeUp(place: Place, id: MessageId): QueueStep {
    if place == Dead then Redrive(id) else Timeout(id)
  }

  lemma ReadyReport(s: State, id: MessageId) returns (steps: seq<Step>, t: State)
    requires Inv(s) && id in s.resultsQueue.messages
    ensures Onward(s, steps, t) && WorkLeft(t) == WorkLeft(s) && ReportReady(t, id)
    ensures t.resultsQueue.messages[id].body == s.resultsQueue.messages[id].body
    ensures t.relays == s.relays && t.outbox == s.outbox
  {
    hide Inv, NoPoison, WorkLeft, Run, Onward;
    var stop := Consuming(CONSUMER, Stop);
    OneStep(s, stop);
    var mid := Apply(s, stop);
    steps, t := [stop], mid;
    var place := mid.resultsQueue.messages[id].place;
    if place != Visible {
      var wake := Results(WakeUp(place, id));
      assert Inv(mid) by { OnwardParts(s, [stop], mid); }
      OneStep(mid, wake);
      t := Apply(mid, wake);
      OnwardConcat(s, [stop], mid, [wake], t);
      steps := [stop] + [wake];
    }
  }

  lemma OnwardParts(s: State, steps: seq<Step>, t: State)
    requires Onward(s, steps, t)
    ensures Run(s, steps, t) && Inv(t) && (NoPoison(s) ==> NoPoison(t)) && t.items == s.items && t.created == s.created
  {
  }

  /** Fetch, understand, record, delete: one report less. */
  lemma TakeReport(s: State, id: MessageId) returns (steps: seq<Step>, t: State)
    requires Inv(s) && ReportReady(s, id) && !IsReportPoison(s.resultsQueue.messages[id].body)
    ensures Onward(s, steps, t) && WorkLeft(t) == WorkLeft(s) - 1
    ensures t.relays == s.relays && t.outbox == s.outbox
  {
    hide Inv, NoPoison, WorkLeft, Run, Onward, ParseItemProcessed, RecordReport;
    var fetch, read, record, drop := Consuming(CONSUMER, Fetch([id])), Consuming(CONSUMER, Understand),
                                     Consuming(CONSUMER, Record), Consuming(CONSUMER, DeleteReport);
    var body := s.resultsQueue.messages[id].body;
    OneStep(s, fetch);
    var s1 := Apply(s, fetch);
    OnwardParts(s, [fetch], s1);
    assert ConsumerOf(s1, CONSUMER) == Consumer([Delivery(id, body)], Waiting);
    OneStep(s1, read);
    var s2 := Apply(s1, read);
    OnwardParts(s1, [read], s2);
    assert ConsumerOf(s2, CONSUMER).step.Understood? && ConsumerOf(s2, CONSUMER).step.message == id;
    OneStep(s2, record);
    var s3 := Apply(s2, record);
    OnwardParts(s2, [record], s3);
    assert ConsumerOf(s3, CONSUMER).step.Recorded? && ConsumerOf(s3, CONSUMER).step.message == id;
    assert s3.resultsQueue == s1.resultsQueue && Removable(s1.resultsQueue, id);
    OneStep(s3, drop);
    t := Apply(s3, drop);
    OnwardConcat(s, [fetch], s1, [read], s2);
    OnwardConcat(s, [fetch] + [read], s2, [record], s3);
    OnwardConcat(s, [fetch] + [read] + [record], s3, [drop], t);
    steps := [fetch] + [read] + [record] + [drop];
  }

  // ---------------------------------------------------------------- one message

  const WORKER := "drain"

  predicate MessageReady(s: State, id: MessageId) {
    id in s.itemsQueue.messages && s.itemsQueue.messages[id].place == Visible && WorkerOf(s, WORKER) == Worker([], Resting)
  }

  lemma ReadyMessage(s: State, id: MessageId) returns (steps: seq<Step>, t: State)
    requires Inv(s) && id in s.itemsQueue.messages
    ensures Onward(s, steps, t) && WorkLeft(t) == WorkLeft(s) && MessageReady(t, id)
    ensures t.itemsQueue.messages[id].body == s.itemsQueue.messages[id].body
    ensures t.relays == s.relays && t.outbox == s.outbox
  {
    hide Inv, NoPoison, WorkLeft, Run, Onward;
    var die := Working(WORKER, Die);
    OneStep(s, die);
    var mid := Apply(s, die);
    steps, t := [die], mid;
    var place := mid.itemsQueue.messages[id].place;
    if place != Visible {
      var wake := Items(WakeUp(place, id));
      assert Inv(mid) by { OnwardParts(s, [die], mid); }
      OneStep(mid, wake);
      t := Apply(mid, wake);
      OnwardConcat(s, [die], mid, [wake], t);
      steps := [die] + [wake];
    }
  }

  /** Receive and parse: the worker holds the message. */
  lemma OpenMessage(s: State, id: MessageId) returns (steps: seq<Step>, t: State)
    requires Inv(s) && MessageReady(s, id) && !IsItemPoison(s.itemsQueue.messages[id].body)
    ensures Onward(s, steps, t) && WorkLeft(t) == WorkLeft(s)
    ensures t.relays == s.relays && t.outbox == s.outbox
    ensures WorkerOf(t, WORKER).step.Parsed? && WorkerOf(t, WORKER).step.message == id && Removable(t.itemsQueue, id)
  {
    hide Inv, NoPoison, WorkLeft, Run, Onward, ParseItemCreated;
    var receive, begin := Working(WORKER, Receive([id])), Working(WORKER, Begin);
    var body := s.itemsQueue.messages[id].body;
    OneStep(s, receive);
    var s1 := Apply(s, receive);
    OnwardParts(s, [receive], s1);
    assert WorkerOf(s1, WORKER) == Worker([Delivery(id, body)], Resting);
    OneStep(s1, begin);
    t := Apply(s1, begin);
    OnwardConcat(s, [receive], s1, [begin], t);
    steps := [receive] + [begin];
  }

  /** The receipt, written now or read back. */
  lemma GetReceipt(s: State, id: MessageId) returns (steps: seq<Step>, t: State)
    requires Inv(s) && WorkerOf(s, WORKER).step.Parsed? && WorkerOf(s, WORKER).step.message == id
    ensures Onward(s, steps, t) && WorkLeft(t) == WorkLeft(s)
    ensures t.relays == s.relays && t.outbox == s.outbox && t.itemsQueue == s.itemsQueue
    ensures WorkerOf(t, WORKER).step.Receipted? && WorkerOf(t, WORKER).step.message == id
  {
    hide Inv, NoPoison, WorkLeft, Run, Onward;
    var insert, read := Working(WORKER, InsertReceipt("now")), Working(WORKER, ReadReceipt);
    OneStep(s, insert);
    t := Apply(s, insert);
    steps := [insert];
    if WorkerOf(t, WORKER).step.Conflicted? {
      var s1 := t;
      OnwardParts(s, [insert], s1);
      OneStep(s1, read);
      t := Apply(s1, read);
      OnwardConcat(s, [insert], s1, [read], t);
      steps := [insert] + [read];
    }
  }

  /** Report and delete: one message less, one report more. */
  lemma ReportMessage(s: State, id: MessageId) returns (steps: seq<Step>, t: State)
    requires Inv(s) && WorkerOf(s, WORKER).step.Receipted? && WorkerOf(s, WORKER).step.message == id
    requires Removable(s.itemsQueue, id)
    ensures Onward(s, steps, t) && WorkLeft(t) == WorkLeft(s) - 1
    ensures t.relays == s.relays && t.outbox == s.outbox
  {
    hide Inv, NoPoison, WorkLeft, Run, Onward, Enqueue, ItemProcessedMessage;
    var copy := Unused(s.resultsQueue.log.Keys);
    var report, delete := Working(WORKER, SendReport(Sending([copy], true))), Working(WORKER, DeleteMessage);
    OneStep(s, report);
    var s1 := Apply(s, report);
    OnwardParts(s, [report], s1);
    assert WorkerOf(s1, WORKER).step.Reported? && WorkerOf(s1, WORKER).step.message == id;
    OneStep(s1, delete);
    t := Apply(s1, delete);
    OnwardConcat(s, [report], s1, [delete], t);
    steps := [report] + [delete];
  }

  /** Whatever place a message is in, it can be handled: one message less, one report more. */
  lemma TakeMessage(s: State, id: MessageId) returns (steps: seq<Step>, t: State)
    requires Inv(s) && id in s.itemsQueue.messages && !IsItemPoison(s.itemsQueue.messages[id].body)
    ensures Onward(s, steps, t) && WorkLeft(t) == WorkLeft(s) - 1
    ensures t.relays == s.relays && t.outbox == s.outbox
  {
    hide Inv, NoPoison, WorkLeft, Run, Onward, WorkerOf, Removable, IsItemPoison;
    var a, s1 := ReadyMessage(s, id);
    OnwardParts(s, a, s1);
    var b, s2 := OpenMessage(s1, id);
    OnwardParts(s1, b, s2);
    OnwardConcat(s, a, s1, b, s2);
    var c, s3 := GetReceipt(s2, id);
    OnwardParts(s2, c, s3);
    OnwardConcat(s, a + b, s2, c, s3);
    var d, s4 := ReportMessage(s3, id);
    OnwardConcat(s, a + b + c, s3, d, s4);
    steps, t := a + b + c + d, s4;
  }

  // ---------------------------------------------------------------- one pass

  const RELAY := 0

  lemma Smallest(rows: set<RowId>) returns (least: RowId)
    requires rows != {}
    ensures least in rows && forall x | x in rows :: least <= x
  {
    least :| least in rows;
    var rest := rows - {least};
    while rest != {}
      invariant least in rows && rest <= rows
      invariant forall x | x in rows :: x in rest || least <= x
    {
      var x :| x in rest;
      if x < least { least := x; }
      rest := rest - {x};
    }
  }

  /** The first rows of a set, in order, at most `n` of them. */
  lemma Oldest(rows: set<RowId>, n: nat) returns (first: seq<RowId>)
    ensures |first| <= n && (forall x | x in first :: x in rows)
    ensures forall j, k | 0 <= j < k < |first| :: first[j] < first[k]
    ensures forall x | x in rows && x !in first :: |first| == n && forall y | y in first :: y < x
    ensures rows != {} && n > 0 ==> first != []
  {
    if rows == {} || n == 0 { return []; }
    var least := Smallest(rows);
    var rest := Oldest(rows - {least}, n - 1);
    first := [least] + rest;
    assert forall k | 0 <= k < |rest| :: rest[k] in rows - {least};
    forall x | x in rows && x !in first ensures |first| == n && forall y | y in first :: y < x {
      assert x in rows - {least};
    }
  }

  /** Every row of a pass is sent once, and heard of. */
  lemma {:induction false} SendAll(s: State) returns (steps: seq<Step>, t: State)
    requires Inv(s) && s.relays.Keys == {RELAY}
    requires MarkedRows(s.relays[RELAY]) == s.relays[RELAY].changed.Keys
    ensures Onward(s, steps, t) && t.relays.Keys == {RELAY} && t.outbox == s.outbox
    ensures t.relays[RELAY].rows == s.relays[RELAY].rows && t.relays[RELAY].tried == |s.relays[RELAY].rows|
    ensures MarkedRows(t.relays[RELAY]) == t.relays[RELAY].changed.Keys
    ensures WorkLeft(t) == WorkLeft(s) + 2 * (|s.relays[RELAY].rows| - s.relays[RELAY].tried)
    decreases |s.relays[RELAY].rows| - s.relays[RELAY].tried
  {
    hide Inv, NoPoison, WorkLeft, Run, Onward, Enqueue;
    var p := s.relays[RELAY];
    PassFacts(s);
    if p.tried == |p.rows| {
      steps, t := [], s;
      Standing(s);
    } else {
      var copy := Unused(s.itemsQueue.log.Keys);
      var send := Relaying(RELAY, Send(Sending([copy], true), 0));
      OneStep(s, send);
      var s1 := Apply(s, send);
      OnwardParts(s, [send], s1);
      assert MarkedRows(s1.relays[RELAY]) == s1.relays[RELAY].changed.Keys;
      var rest, end := SendAll(s1);
      OnwardConcat(s, [send], s1, rest, end);
      steps, t := [send] + rest, end;
    }
  }

  lemma Standing(s: State)
    requires Inv(s)
    ensures Onward(s, [], s)
  {
    hide Inv, NoPoison;
  }

  lemma PassFacts(s: State)
    requires Inv(s) && RELAY in s.relays
    ensures PassOk(s.outbox, s.relays[RELAY])
  {
    hide DataOk, WorkersOk, ConsumersOk, NothingLost;
    PassIsOk(s, RELAY);
  }

  /** A finished pass that tried every row has changed exactly its rows, each of them once. */
  lemma PassSize(outbox: map<RowId, Row>, p: Pass)
    requires PassOk(outbox, p) && p.tried == |p.rows|
    ensures |p.changed.Keys| == |p.rows|
  {
    assert p.rows[..p.tried] == p.rows;
    assert p.changed.Keys == Elements(p.rows);
    DistinctSize(p.rows);
  }

  lemma OldestIsSelection(s: State, rows: seq<RowId>)
    requires s.relays == map[] && |rows| <= RELAY_BATCH && rows != []
    requires forall x | x in rows :: x in UnpublishedRows(s.outbox)
    requires forall j, k | 0 <= j < k < |rows| :: rows[j] < rows[k]
    requires forall x | x in UnpublishedRows(s.outbox) && x !in rows ::
               |rows| == RELAY_BATCH && forall y | y in rows :: y < x
    ensures IsSelection(s, rows)
  {
    forall row | row in s.outbox && Selectable(s, row) && row !in rows
      ensures |rows| == RELAY_BATCH && rows[|rows| - 1] < row
    {
      assert row in UnpublishedRows(s.outbox);
      assert rows[|rows| - 1] in rows;
    }
    assert forall k | 0 <= k < |rows| :: rows[k] in rows;
  }

  lemma OpenPass(s: State) returns (steps: seq<Step>, t: State)
    requires Inv(s) && s.relays == map[] && UnpublishedRows(s.outbox) != {}
    ensures Onward(s, steps, t) && t.relays.Keys == {RELAY} && t.relays[RELAY].changed == map[]
    ensures t.relays[RELAY].tried == 0 && t.relays[RELAY].rows != [] && WorkLeft(t) == WorkLeft(s)
  {
    hide Inv, NoPoison, WorkLeft, Run, Onward;
    var rows := Oldest(UnpublishedRows(s.outbox), RELAY_BATCH);
    var select := Relaying(RELAY, Select(rows));
    OldestIsSelection(s, rows);
    OneStep(s, select);
    steps, t := [select], Apply(s, select);
    assert t.relays == map[RELAY := Pass(rows, 0, map[])];
  }

  lemma ClosePass(s: State) returns (steps: seq<Step>, t: State)
    requires Inv(s) && s.relays.Keys == {RELAY} && s.relays[RELAY].tried == |s.relays[RELAY].rows|
    requires MarkedRows(s.relays[RELAY]) == s.relays[RELAY].changed.Keys
    ensures Onward(s, steps, t) && t.relays == map[] && WorkLeft(t) == WorkLeft(s) - 3 * |s.relays[RELAY].rows|
  {
    hide Inv, NoPoison, WorkLeft, Run, Onward, CommitPass, MarkedRows;
    var commit := Relaying(RELAY, Commit);
    PassFacts(s);
    PassSize(s.outbox, s.relays[RELAY]);
    OneStep(s, commit);
    steps, t := [commit], Apply(s, commit);
    CommitEmpties(s);
  }

  /** A pass over the oldest unpublished rows leaves one unit less for each of them. */
  lemma TakeRows(s: State) returns (steps: seq<Step>, t: State)
    requires Inv(s) && s.relays == map[] && UnpublishedRows(s.outbox) != {}
    ensures Onward(s, steps, t) && t.relays == map[] && WorkLeft(t) < WorkLeft(s)
  {
    hide Inv, NoPoison, WorkLeft, Run, Onward, UnpublishedRows;
    var a, s1 := OpenPass(s);
    OnwardParts(s, a, s1);
    var b, s2 := SendAll(s1);
    OnwardParts(s1, b, s2);
    OnwardConcat(s, a, s1, b, s2);
    var c, s3 := ClosePass(s2);
    OnwardConcat(s, a + b, s2, c, s3);
    steps, t := a + b + c, s3;
  }

  lemma CommitEmpties(s: State)
    requires s.relays.Keys == {RELAY}
    ensures CommitPass(s, RELAY).relays == map[]
  {
  }

  // ---------------------------------------------------------------- open passes

  /** A pass that is open can die, and costs nothing: its rows are as they were. */
  lemma {:induction false} CloseEveryPass(s: State) returns (steps: seq<Step>, t: State)
    requires Inv(s)
    ensures Onward(s, steps, t) && t.relays == map[] && WorkLeft(t) == WorkLeft(s)
    decreases |s.relays|
  {
    hide Inv, NoPoison, WorkLeft, Run, Onward;
    if s.relays == map[] {
      Standing(s);
      steps, t := [], s;
    } else {
      var r :| r in s.relays;
      var abort := Relaying(r, Abort);
      OneStep(s, abort);
      var mid := Apply(s, abort);
      OnwardParts(s, [abort], mid);
      FewerPasses(s.relays, r);
      var rest, end := CloseEveryPass(mid);
      OnwardConcat(s, [abort], mid, rest, end);
      steps, t := [abort] + rest, end;
    }
  }

  lemma FewerPasses(relays: map<nat, Pass>, r: nat)
    requires r in relays
    ensures |relays - {r}| < |relays|
  {
    assert (relays - {r}).Keys == relays.Keys - {r};
    assert |(relays - {r}).Keys| == |relays - {r}| && |relays.Keys| == |relays|;
  }

  // ---------------------------------------------------------------- everything

  /** One round of work: some rows, a message or a report. */
  lemma TakeSomething(s: State) returns (steps: seq<Step>, t: State)
    requires Inv(s) && s.relays == map[] && !OnlyPoisonLeft(s)
    ensures Onward(s, steps, t) && t.relays == map[] && WorkLeft(t) < WorkLeft(s)
  {
    hide Inv, NoPoison, WorkLeft, Run, Onward, IsItemPoison, IsReportPoison, UnpublishedRows;
    if UnpublishedRows(s.outbox) != {} {
      steps, t := TakeRows(s);
    } else if id :| id in s.itemsQueue.messages && !IsItemPoison(s.itemsQueue.messages[id].body) {
      steps, t := TakeMessage(s, id);
    } else {
      var id :| id in s.resultsQueue.messages && !IsReportPoison(s.resultsQueue.messages[id].body);
      var a, s1 := ReadyReport(s, id);
      OnwardParts(s, a, s1);
      var b, s2 := TakeReport(s1, id);
      OnwardConcat(s, a, s1, b, s2);
      steps, t := a + b, s2;
    }
  }

  lemma {:induction false} DrainsIdle(s: State) returns (steps: seq<Step>, t: State)
    requires Inv(s) && s.relays == map[]
    ensures Onward(s, steps, t) && OnlyPoisonLeft(t)
    decreases WorkLeft(s)
  {
    hide Inv, NoPoison, Run, Onward, OnlyPoisonLeft;
    if OnlyPoisonLeft(s) {
      Standing(s);
      steps, t := [], s;
    } else {
      var first, mid := TakeSomething(s);
      OnwardParts(s, first, mid);
      var rest, end := DrainsIdle(mid);
      OnwardConcat(s, first, mid, rest, end);
      steps, t := first + rest, end;
    }
  }

  /** The pipeline drains, whatever happened before: from every state the invariant allows, steps of
      the system leave nothing but poison; and nothing at all when there was no poison. */
  lemma Drains(s: State) returns (steps: seq<Step>, t: State)
    requires Inv(s)
    ensures Run(s, steps, t) && t.items == s.items && t.created == s.created && OnlyPoisonLeft(t)
    ensures NoPoison(s) ==> WorkLeft(t) == 0
  {
    hide Inv, NoPoison, Run, Onward, OnlyPoisonLeft, WorkLeft;
    var close, idle := CloseEveryPass(s);
    OnwardParts(s, close, idle);
    var work, end := DrainsIdle(idle);
    OnwardConcat(s, close, idle, work, end);
    OnwardParts(s, close + work, end);
    if NoPoison(s) { NoPoisonIsZero(end); }
    steps, t := close + work, end;
  }

  lemma NoPoisonIsZero(s: State)
    requires Inv(s) && NoPoison(s) && OnlyPoisonLeft(s)
    ensures WorkLeft(s) == 0
  {
    hide IsReportPoison, IsItemPoison, RelaysOk, WorkersOk, ConsumersOk, NothingLost;
    assert s.itemsQueue.messages == map[] && s.resultsQueue.messages == map[];
  }

  /** Put together: after any run at all, the system's own steps can take every live item made by
      `create_item` to its projection. */
  lemma EveryItemCanBeProjected(steps: seq<Step>, s: State) returns (more: seq<Step>, end: State)
    requires Run(START, steps, s)
    ensures Run(s, more, end) && end.items == s.items
    ensures forall i | i in s.created && i in s.items :: i in end.projection
  {
    hide Inv, NoPoison, WorkLeft, Enabled, Apply, OnlyPoisonLeft;
    assert Inv(s) by {
      StartIsFine();
      RunKeeps(START, steps, s);
    }
    more, end := Drains(s);
    RunConcat(START, steps, s, more, end);
    assert Reachable(end);
    OnlyPoisonLeftMeansProjected(end);
  }

  lemma StartIsFine()
    ensures Inv(START) && NoPoison(START)
  {
  }
}
