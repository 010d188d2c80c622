/** What a folded stream says, in the terms of its events: which event each field of a record is taken from,
    when an operation or a timeline is errored and when incomplete, and what the totals count. */
module TimelineTheorems {
  import opened Options
  import opened FoldTimeline

  // ---------------------------------------------------------------- the last event of its kind

  /** The last of these events on this address stands here. */
  predicate IsLast(events: seq<Event>, a: string, steps: set<HookKind>, k: nat) {
    k < |events| && On(events[k], a, steps) && forall j | k < j < |events| :: !On(events[j], a, steps)
  }

  lemma LastIsOne(events: seq<Event>, a: string, steps: set<HookKind>, j: nat, k: nat)
    requires IsLast(events, a, steps, j) && IsLast(events, a, steps, k)
    ensures j == k
  {
  }

  lemma LatestStands(events: seq<Event>, a: string, steps: set<HookKind>) returns (k: nat)
    requires Latest(events, a, steps).Some?
    ensures IsLast(events, a, steps, k) && Latest(events, a, steps) == Some(events[k])
  {
    k := LatestIsLast(events, a, steps);
  }

  lemma LatestAt(events: seq<Event>, a: string, steps: set<HookKind>, k: nat)
    requires IsLast(events, a, steps, k)
    ensures Latest(events, a, steps) == Some(events[k])
  {
    assert events[k] in events;
    var j := LatestIsLast(events, a, steps);
    LastIsOne(events, a, steps, j, k);
  }

  lemma NoneStands(events: seq<Event>, a: string, steps: set<HookKind>)
    ensures Latest(events, a, steps).None? ==> forall k: nat :: !IsLast(events, a, steps, k)
  {
    assert forall k | 0 <= k < |events| :: events[k] in events;
  }

  /** Every field of a record is that of one event: its start of the last start, its end and its duration of the
      last outcome, its progress of the last progress, its id of the last completion. */
  lemma RecordTells(events: seq<Event>, a: string, k: nat)
    requires First(events, a).Some?
    ensures var r := RecordOf(events, a);
            && (IsLast(events, a, {Start}, k) ==> r.startedAt == events[k].ts)
            && (IsLast(events, a, OUTCOME, k) ==>
                  r.finishedAt == events[k].ts && r.elapsed == events[k].payload.hook.elapsed)
            && (IsLast(events, a, {Progress}, k) ==> r.lastProgress == events[k].payload.hook.elapsed)
            && (IsLast(events, a, {Complete}, k) ==>
                  r.idKey == events[k].payload.hook.idKey && r.idValue == events[k].payload.hook.idValue)
  {
    hide Latest, First, ActionOf, IsLast;
    if IsLast(events, a, {Start}, k) { LatestAt(events, a, {Start}, k); }
    if IsLast(events, a, OUTCOME, k) { LatestAt(events, a, OUTCOME, k); }
    if IsLast(events, a, {Progress}, k) { LatestAt(events, a, {Progress}, k); }
    if IsLast(events, a, {Complete}, k) { LatestAt(events, a, {Complete}, k); }
  }

  /** And a field whose kind of event never came is empty. */
  lemma RecordIsSilent(events: seq<Event>, a: string)
    requires First(events, a).Some?
    ensures var r := RecordOf(events, a);
            && ((forall e | e in events :: !On(e, a, {Start})) ==> r.startedAt.None?)
            && ((forall e | e in events :: !On(e, a, OUTCOME)) ==> r.finishedAt.None? && r.elapsed.None?)
            && ((forall e | e in events :: !On(e, a, {Progress})) ==> r.lastProgress.None?)
            && ((forall e | e in events :: !On(e, a, {Complete})) ==> r.idKey.None? && r.idValue.None?)
  {
    hide First, ActionOf;
  }

  /** An event on this address that nothing on this address came before. */
  predicate IsFirst(events: seq<Event>, a: string, k: nat) {
    k < |events| && About(events[k], a) && forall j | 0 <= j < k :: !About(events[j], a)
  }

  lemma {:induction false} FirstStands(events: seq<Event>, a: string, k: nat)
    requires IsFirst(events, a, k)
    ensures First(events, a) == Some(events[k])
    decreases |events|
  {
    var init := events[..|events| - 1];
    if k < |init| {
      FirstStands(init, a, k);
    } else {
      assert forall e | e in init :: !About(e, a);
    }
  }

  /** What a record is - its module, its kind, its name - is what the first event on its address says. */
  lemma RecordIsAsFirstMet(events: seq<Event>, a: string, k: nat)
    requires IsFirst(events, a, k)
    ensures First(events, a).Some?
    ensures var r, hook := RecordOf(events, a), events[k].payload.hook;
            r.address == a && r.inModule == hook.inModule && r.kind == hook.kind && r.name == hook.name
  {
    FirstStands(events, a, k);
    hide First, Latest, ActionOf;
  }

  predicate NamesAction(e: Event, a: string) {
    About(e, a) && Truthy(e.payload.hook.action)
  }

  /** Its action is the last that was named on its address. */
  lemma {:induction false} ActionStands(events: seq<Event>, a: string, k: nat)
    requires k < |events| && NamesAction(events[k], a) && forall j | k < j < |events| :: !NamesAction(events[j], a)
    ensures ActionOf(events, a) == events[k].payload.hook.action
    decreases |events|
  {
    var n := |events| - 1;
    if k < n {
      ActionStands(events[..n], a, k);
      assert events[..n][k] == events[k] && events[..n][k] in events[..n];
      assert First(events[..n], a).Some?;
    }
  }

  /** And where none was, what the first event had. */
  lemma {:induction false} ActionAsFirstMet(events: seq<Event>, a: string, k: nat)
    requires IsFirst(events, a, k) && forall j | 0 <= j < |events| :: !NamesAction(events[j], a)
    ensures ActionOf(events, a) == events[k].payload.hook.action
    decreases |events|
  {
    var n := |events| - 1;
    if k < n {
      FirstStands(events[..n], a, k);
      ActionAsFirstMet(events[..n], a, k);
    } else {
      assert forall e | e in events[..n] :: !About(e, a);
    }
  }

  // ---------------------------------------------------------------- plans and summaries

  /** The last plan of this address stands here. */
  predicate LastPlan(events: seq<Event>, a: string, k: nat) {
    && k < |events| && Plans(events[k]) && events[k].payload.address == a
    && forall j | k < j < |events| :: !(Plans(events[j]) && events[j].payload.address == a)
  }

  /** What is planned of an address is what its last plan says; and nothing is where none was made. */
  lemma {:induction false} PlannedExactly(events: seq<Event>, a: string)
    ensures a in PlannedOf(events) <==> exists k: nat :: LastPlan(events, a, k)
    ensures forall k: nat | LastPlan(events, a, k) :: a in PlannedOf(events) && PlannedOf(events)[a] == events[k].payload.planned
    decreases |events|
  {
    if events == [] {
    } else {
      var n := |events| - 1;
      var init := events[..n];
      PlannedExactly(init, a);
      if Plans(events[n]) && events[n].payload.address == a {
        assert LastPlan(events, a, n);
      } else {
        forall k: nat ensures LastPlan(events, a, k) <==> LastPlan(init, a, k) {
          assert forall j | 0 <= j < n :: init[j] == events[j];
        }
      }
    }
  }

  predicate LastSummary(events: seq<Event>, k: nat) {
    k < |events| && Terminal(events[k]) && forall j | k < j < |events| :: !Terminal(events[j])
  }

  lemma {:induction false} SummaryStands(events: seq<Event>, k: nat)
    requires LastSummary(events, k)
    ensures Summary(events) == Some(events[k])
    decreases |events|
  {
    if k < |events| - 1 { SummaryStands(events[..|events| - 1], k); }
  }

  /** The command reached and its counts are those of the last summary of an apply or a destroy. */
  lemma SummaryTells(events: seq<Event>, k: nat)
    requires LastSummary(events, k)
    ensures CommandOf(events) == Some(events[k].payload.operation) && CountsOf(events) == Some(events[k].payload.counts)
  {
    SummaryStands(events, k);
    hide Summary;
  }

  /** Without one there are no counts, and no more was reached than a plan. */
  lemma NoSummaryTells(events: seq<Event>)
    requires forall e | e in events :: !Terminal(e)
    ensures CountsOf(events) == None
    ensures CommandOf(events) ==
            if exists e :: e in events && e.payload.ChangeSummary? && e.payload.operation == "plan" then Some("plan") else None
  {
    hide Summary;
  }

  // ---------------------------------------------------------------- the lines of a stream

  /** What is read of a stream is its parsed lines, in order, and how many lines could not be parsed. */
  lemma {:induction false} LinesAreRead(first: seq<Line>, second: seq<Line>)
    ensures EventsOn(first + second) == EventsOn(first) + EventsOn(second)
    ensures UnparsedOn(first + second) == UnparsedOn(first) + UnparsedOn(second)
    decreases |second|
  {
    if second == [] {
      assert first + second == first;
    } else {
      var n := |second| - 1;
      LinesAreRead(first, second[..n]);
      assert (first + second)[..|first + second| - 1] == first + second[..n];
    }
  }

  lemma OneLineIsRead(line: Line)
    ensures EventsOn([line]) == if line.Parsed? then [line.event] else []
    ensures UnparsedOn([line]) == if line.Unparsed? then 1 else 0
  {
    assert [line][..0] == [];
  }

  // ---------------------------------------------------------------- errored and incomplete

  /** The last completed-or-errored event on this address is an error. */
  predicate EndsErrored(events: seq<Event>, a: string) {
    exists k: nat | k < |events| :: IsLast(events, a, OUTCOME, k) && events[k].payload.step == Errored
  }

  lemma RecordIsErrored(events: seq<Event>, a: string)
    requires First(events, a).Some?
    ensures RecordOf(events, a).status == IsErrored <==> EndsErrored(events, a)
  {
    hide First, Latest, ActionOf;
    if Latest(events, a, OUTCOME).Some? {
      var k := LatestStands(events, a, OUTCOME);
      forall j: nat | IsLast(events, a, OUTCOME, j) ensures j == k { LastIsOne(events, a, OUTCOME, j, k); }
    } else {
      NoneStands(events, a, OUTCOME);
    }
  }

  predicate SomeEndsErrored(events: seq<Event>) {
    exists k :: 0 <= k < |events| && Names(events[k]) && EndsErrored(events, events[k].payload.hook.address)
  }

  /** The process returned, and with an error: its own, or one that stands on some address. */
  predicate RanIntoAnError(exitCode: Option<int>, events: seq<Event>) {
    exitCode.Some? && (exitCode.value != 0 || SomeEndsErrored(events))
  }

  /** The process did not return; or returned zero with nothing errored and yet without an apply or destroy
      summary, or with an address that never ended. */
  predicate StoppedShort(exitCode: Option<int>, events: seq<Event>) {
    || exitCode.None?
    || (exitCode == Some(0) && !SomeEndsErrored(events)
        && ((forall k | 0 <= k < |events| :: !Terminal(events[k]))
            || exists k :: 0 <= k < |events| && Names(events[k])
                           && !EndsCompleted(events, events[k].payload.hook.address)))
  }

  lemma Mentioned(events: seq<Event>, a: string)
    ensures First(events, a).Some? <==> exists k :: 0 <= k < |events| && About(events[k], a)
  {
    hide First;
    assert forall k | 0 <= k < |events| :: events[k] in events;
  }

  lemma SomeRecordErrored(events: seq<Event>)
    ensures (exists a :: a in ResourcesOf(events) && ResourcesOf(events)[a].status == IsErrored) <==> SomeEndsErrored(events)
  {
    hide RecordOf, EndsErrored, First;
    var resources := ResourcesOf(events);
    forall a | a in resources ensures resources[a].status == IsErrored <==> EndsErrored(events, a) {
      RecordIsErrored(events, a);
    }
    forall a ensures a in resources <==> exists k :: 0 <= k < |events| && About(events[k], a) { Mentioned(events, a); }
    if k :| 0 <= k < |events| && Names(events[k]) && EndsErrored(events, events[k].payload.hook.address) {
      assert About(events[k], events[k].payload.hook.address);
    }
  }

  /** Exactly then an operation is errored, and exactly then incomplete. */
  lemma ErroredExactly(exitCode: Option<int>, events: seq<Event>)
    ensures Verdict(exitCode, events) == ErroredRun <==> RanIntoAnError(exitCode, events)
    ensures Verdict(exitCode, events) == IncompleteRun <==> StoppedShort(exitCode, events)
  {
    SomeRecordErrored(events);
    CompleteExactly(exitCode, events);
    hide ResourcesOf, Summary, EndsCompleted, SomeEndsErrored;
  }

  lemma FoldIs(c: Capture)
    ensures FoldedOf(c).status == Verdict(c.exitCode, c.events)
  {
    hide ResourcesOf, Summary, StatusOf;
  }

  /** A timeline is incomplete exactly when it has no operations or one of them stopped short, and errored exactly
      when it is not that and one of them ran into an error. */
  lemma TimelineStatusExactly(environment: Option<string>, captures: seq<Capture>)
    ensures var status := TimelineOf(environment, FoldAll(captures)).status;
            var short := captures == [] || exists c :: c in captures && StoppedShort(c.exitCode, c.events);
            && (status == IncompleteRun <==> short)
            && (status == ErroredRun <==> !short && exists c :: c in captures && RanIntoAnError(c.exitCode, c.events))
  {
    hide FoldedOf, StoppedShort, RanIntoAnError, Verdict;
    var folds := FoldAll(captures);
    var statuses := StatusesOf(folds);
    forall k | 0 <= k < |captures|
      ensures statuses[k] == Verdict(captures[k].exitCode, captures[k].events)
      ensures statuses[k] == IncompleteRun <==> StoppedShort(captures[k].exitCode, captures[k].events)
      ensures statuses[k] == ErroredRun <==> RanIntoAnError(captures[k].exitCode, captures[k].events)
    {
      FoldIs(captures[k]);
      ErroredExactly(captures[k].exitCode, captures[k].events);
    }
    assert forall c :: c in captures <==> exists k :: 0 <= k < |captures| && captures[k] == c;
    assert forall s :: s in statuses <==> exists k :: 0 <= k < |statuses| && statuses[k] == s;
    assert TimelineOf(environment, folds).status == TimelineStatus(statuses);
  }

  // ---------------------------------------------------------------- totals

  /** Where the records are that completed with an action of these: operation and place in it. */
  function Finished(operations: seq<Folded>, actions: set<string>): set<(nat, nat)> {
    set j: nat, k: nat | j < |operations| && k < |operations[j].resources|
                         && operations[j].resources[k].status == IsComplete
                         && operations[j].resources[k].action.Some? && operations[j].resources[k].action.value in actions
                       :: (j, k)
  }

  function FinishedIn(records: seq<Record>, actions: set<string>): set<nat> {
    set k: nat | k < |records| && records[k].status == IsComplete
                 && records[k].action.Some? && records[k].action.value in actions
  }

  lemma FinishedSnoc(records: seq<Record>, actions: set<string>)
    requires records != []
    ensures var n := |records| - 1;
            && n !in FinishedIn(records[..n], actions)
            && FinishedIn(records, actions) ==
               FinishedIn(records[..n], actions)
               + if records[n].status == IsComplete && records[n].action.Some? && records[n].action.value in actions then {n} else {}
  {
  }

  lemma {:induction false} CompletedCount(records: seq<Record>, actions: set<string>)
    ensures CompletedBy(records, actions) == |FinishedIn(records, actions)|
    decreases |records|
  {
    if records == [] {
    } else {
      FinishedSnoc(records, actions);
      hide FinishedIn;
      CompletedCount(records[..|records| - 1], actions);
    }
  }

  function Paired(j: nat, ks: set<nat>): set<(nat, nat)> {
    set k | k in ks :: (j, k)
  }

  lemma {:induction false} PairedCount(j: nat, ks: set<nat>)
    ensures |Paired(j, ks)| == |ks|
    decreases ks
  {
    if ks == {} {
    } else {
      var k :| k in ks;
      PairedCount(j, ks - {k});
      assert Paired(j, ks) == Paired(j, ks - {k}) + {(j, k)};
    }
  }

  lemma OneMoreOperation(operations: seq<Folded>, actions: set<string>)
    requires operations != []
    ensures var n := |operations| - 1;
            var before, here := Finished(operations[..n], actions), Paired(n, FinishedIn(operations[n].resources, actions));
            Finished(operations, actions) == before + here && before !! here
  {
  }

  /** A timeline's totals are how many of its records completed with an action that creates, or deletes. */
  lemma {:induction false} TotalsCount(operations: seq<Folded>, actions: set<string>)
    ensures AllCompletedBy(operations, actions) == |Finished(operations, actions)|
    decreases |operations|
  {
    if operations == [] {
    } else {
      hide Finished, FinishedIn, Paired, CompletedBy;
      var n := |operations| - 1;
      TotalsCount(operations[..n], actions);
      OneMoreOperation(operations, actions);
      PairedCount(n, FinishedIn(operations[n].resources, actions));
      CompletedCount(operations[n].resources, actions);
    }
  }
}
