/** What the requests of the api do to the items, in the terms of the items themselves: each is refused exactly
    when it must be, changes exactly its own item, and no two live items ever share a name. */
module PipelineRequests {
  import opened Options
  import opened Events
  import opened Pipeline
  import opened PipelineTheorems

  /** No two live items have one name. */
  predicate NamesDiffer(items: map<ItemId, string>) {
    forall i, j | i in items && j in items && i != j :: items[i] != items[j]
  }

  /** A create is refused exactly when a live item has the name, and then only its id is lost; otherwise there is
      one item and one unpublished row more, and the row's event parses to that item. */
  lemma CreateExactly(s: State, name: string, createdAt: string, request: Option<string>)
    requires s.nextItem > 0
    ensures var t := ApiApply(s, Create(name, createdAt, request));
            if exists i :: i in s.items && s.items[i] == name then t == s.(nextItem := s.nextItem + 1)
            else
              && t.items == s.items[s.nextItem := name] && t.created == s.created + {s.nextItem}
              && s.nextRow in t.outbox && t.outbox == s.outbox[s.nextRow := t.outbox[s.nextRow]]
              && t.outbox[s.nextRow].publishedAt.None? && t.outbox[s.nextRow].attempts == 0
              && ParseItemCreated(Decoded(t.outbox[s.nextRow].payload)) ==
                 Ok(Created(s.nextItem, OrDash(if request.Some? then request.value else "")))
              && t.nextItem == s.nextItem + 1 && t.nextRow == s.nextRow + 1
              && t.projection == s.projection
  {
    CreatedRoundTrip(s.nextItem, name, createdAt, request);
    hide ItemCreatedEvent, ParseItemCreated;
  }

  /** A rename is refused exactly when the item is not there or another has the name; and changes its item's name
      and nothing else. */
  lemma RenameExactly(s: State, item: ItemId, name: string)
    ensures var t := ApiApply(s, Rename(item, name));
            if item in s.items && forall i | i in s.items && i != item :: s.items[i] != name
            then t == s.(items := s.items[item := name])
            else t == s
  {
    if item in s.items && s.items[item] == name { assert s.items[item := name] == s.items; }
  }

  /** A seed makes its item unless a live one has the name, and no event goes with it. */
  lemma SeedExactly(s: State, name: string)
    ensures ApiApply(s, Seed(name)) ==
            if exists i :: i in s.items && s.items[i] == name then s
            else s.(items := s.items[s.nextItem := name], nextItem := s.nextItem + 1)
  {
  }

  /** A delete takes the item and its projection, and nothing else of the api's. */
  lemma DeleteExactly(s: State, item: ItemId)
    ensures var t := ApiApply(s, Delete(item));
            && t == s.(items := t.items, projection := t.projection)
            && item !in t.items && item !in t.projection
            && (forall i | i != item :: (i in t.items <==> i in s.items) && (i in t.projection <==> i in s.projection))
            && (forall i | i in t.items :: t.items[i] == s.items[i])
            && (forall i | i in t.projection :: t.projection[i] == s.projection[i])
  {
  }

  lemma RequestKeepsNamesDifferent(s: State, e: ApiStep)
    requires NamesDiffer(s.items)
    ensures NamesDiffer(ApiApply(s, e).items)
  {
    hide ItemCreatedEvent;
    match e
    case Create(name, _, _) =>
    case Rollback =>
    case Seed(name) =>
    case Rename(_, newName) =>
    case Delete(_) =>
  }

  lemma StepKeepsNamesDifferent(s: State, e: Step)
    requires Enabled(s, e) && NamesDiffer(s.items)
    ensures NamesDiffer(Apply(s, e).items)
  {
    if e.Api? {
      hide ApiApply, NamesDiffer;
      RequestKeepsNamesDifferent(s, e.api);
    } else {
      hide Apply, Enabled, NamesDiffer;
      OnlyRequestsTouchItems(s, e);
    }
  }

  /** Along any run no two live items ever share a name. */
  lemma {:induction false} NamesStayDifferent(s: State, steps: seq<Step>, end: State)
    requires Run(s, steps, end) && NamesDiffer(s.items)
    ensures NamesDiffer(end.items)
    decreases steps
  {
    hide Apply, Enabled, NamesDiffer;
    if steps == [] {
    } else {
      StepKeepsNamesDifferent(s, steps[0]);
      NamesStayDifferent(Apply(s, steps[0]), steps[1..], end);
    }
  }

  /** So in every reachable state. */
  lemma ReachableNamesDiffer(s: State)
    requires Reachable(s)
    ensures NamesDiffer(s.items)
  {
    hide Run, NamesDiffer;
    var steps: seq<Step> :| Run(START, steps, s);
    assert NamesDiffer(START.items) by { NoItems(); }
    NamesStayDifferent(START, steps, s);
  }

  lemma NoItems()
    ensures NamesDiffer(START.items)
  {
  }
}
