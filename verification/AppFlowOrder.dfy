/** In which order the walk draws: each part's own arrows in their own order with their own steps, and no part
    before it is met - by a delivery that has just been drawn, or by reading what another part has finished. */
module AppFlowOrder {
  import opened Options
  import opened AppFlow

  // ---------------------------------------------------------------- whose arrow it is

  function Owner(arrow: Arrow, entry: nat): Option<nat> {
    match arrow
    case Write(key, _) => Some(key)
    case Transaction(key) => Some(key)
    case Publish(key, _) => Some(key)
    case Response(_) => Some(entry)
    case ResponseToBrowser => Some(entry)
    case _ => None
  }

  /** A part's own arrows, in the order they were drawn. */
  function By(shown: seq<Shown>, p: nat, entry: nat): seq<Shown> {
    if shown == [] then []
    else
      var last := shown[|shown| - 1];
      By(shown[..|shown| - 1], p, entry) + if Owner(last.arrow, entry) == Some(p) then [last] else []
  }

  lemma ByMore(shown: seq<Shown>, x: Shown, p: nat, entry: nat)
    ensures By(shown + [x], p, entry) == By(shown, p, entry) + if Owner(x.arrow, entry) == Some(p) then [x] else []
  {
    assert (shown + [x])[..|shown|] == shown;
  }

  /** A part with one table to write does so in a step; with several, in the step of a transaction. */
  function WritesShown(key: nat, tables: seq<string>, n: nat): (r: seq<Shown>)
    requires n <= |tables|
    ensures |r| == n
  {
    seq(n, i requires 0 <= i < n => Shown(Write(key, tables[i]), |tables| == 1))
  }

  function PublishesShown(key: nat, queues: seq<string>): (r: seq<Shown>)
    ensures |r| == |queues|
  {
    seq(|queues|, i requires 0 <= i < |queues| => Shown(Publish(key, queues[i]), true))
  }

  /** What a part draws before it publishes: its writes, and the answer if it is the one that answers. */
  function FirstShown(parts: seq<Part>, key: nat, entry: nat): seq<Shown>
    requires key < |parts|
  {
    var tables := parts[key].writes;
    WritesShown(key, tables, |tables|)
    + (if |tables| > 1 then [Shown(Transaction(key), true)] else [])
    + (if key == entry then [Shown(Response(parts[key].service), true), Shown(ResponseToBrowser, false)] else [])
  }

  /** All a part draws, in order. */
  function OwnShown(parts: seq<Part>, key: nat, entry: nat): seq<Shown> {
    if key >= |parts| then [] else FirstShown(parts, key, entry) + PublishesShown(key, parts[key].publishes)
  }

  // ---------------------------------------------------------------- why a part is drawn now

  /** Some part has published to this queue. */
  ghost predicate Sent(shown: seq<Shown>, q: string, entry: nat) {
    exists k: nat :: Shown(Publish(k, q), true) in By(shown, k, entry)
  }

  /** A part that writes what `p` reads has drawn all of its own. */
  ghost predicate MetByReading(parts: seq<Part>, entry: nat, shown: seq<Shown>, p: nat) {
    exists w: nat :: w < |parts| && p < |parts| && Shares(parts[p].looksAt, parts[w].writes)
                     && By(shown, w, entry) == OwnShown(parts, w, entry)
  }

  /** Why `p` may draw next: it answers, it has drawn before, the last arrow delivers to it, or it reads. */
  ghost predicate MayDraw(parts: seq<Part>, entry: nat, shown: seq<Shown>, p: nat) {
    || p == entry
    || By(shown, p, entry) != []
    || (shown != [] && shown[|shown| - 1].arrow.Deliver? && shown[|shown| - 1].arrow.consumer == p)
    || MetByReading(parts, entry, shown, p)
  }

  /** Why an arrow may come next: its owner may draw, and a delivery - a step - is of a queue published to. */
  ghost predicate MayCome(parts: seq<Part>, entry: nat, shown: seq<Shown>, x: Shown) {
    && (Owner(x.arrow, entry).Some? ==> MayDraw(parts, entry, shown, Owner(x.arrow, entry).value))
    && (x.arrow.Deliver? ==> x.numbered && Sent(shown, x.arrow.queue, entry))
  }

  ghost predicate InOrder(parts: seq<Part>, entry: nat, shown: seq<Shown>) {
    forall i | 0 <= i < |shown| :: MayCome(parts, entry, shown[..i], shown[i])
  }

  lemma InOrderMore(parts: seq<Part>, entry: nat, shown: seq<Shown>, x: Shown)
    requires InOrder(parts, entry, shown) && MayCome(parts, entry, shown, x)
    ensures InOrder(parts, entry, shown + [x])
  {
    hide MayCome;
    var all := shown + [x];
    forall i | 0 <= i < |all| ensures MayCome(parts, entry, all[..i], all[i]) {
      if i < |shown| { assert all[..i] == shown[..i] && all[i] == shown[i]; } else { assert all[..i] == shown; }
    }
  }

  // ---------------------------------------------------------------- what one visit adds

  /** From `t` to `r` each newly seen part drew all its own, in order, and no other part drew any. */
  ghost predicate Grows(parts: seq<Part>, entry: nat, t: Trail, r: Trail) {
    && t.seen <= r.seen
    && forall p: nat :: By(r.shown, p, entry) ==
                        By(t.shown, p, entry) + if p in r.seen && p !in t.seen then OwnShown(parts, p, entry) else []
  }

  /** Parts not seen have drawn nothing, and everything drawn is in order. */
  ghost predicate Orderly(parts: seq<Part>, entry: nat, t: Trail) {
    InOrder(parts, entry, t.shown) && forall p: nat | p !in t.seen :: By(t.shown, p, entry) == []
  }

  lemma NothingGrows(parts: seq<Part>, entry: nat, t: Trail)
    ensures Grows(parts, entry, t, t)
  {
  }

  lemma GrowsOn(parts: seq<Part>, entry: nat, t: Trail, m: Trail, r: Trail)
    requires Grows(parts, entry, t, m) && Grows(parts, entry, m, r)
    ensures Grows(parts, entry, t, r)
  {
    hide By, OwnShown;
  }

  lemma SentStays(parts: seq<Part>, entry: nat, t: Trail, r: Trail, q: string)
    requires Grows(parts, entry, t, r) && Sent(t.shown, q, entry)
    ensures Sent(r.shown, q, entry)
  {
    hide By, OwnShown;
    var k: nat :| Shown(Publish(k, q), true) in By(t.shown, k, entry);
    assert Shown(Publish(k, q), true) in By(r.shown, k, entry);
  }

  /** Drawing an arrow nobody owns adds to nobody's. */
  lemma FreeArrow(parts: seq<Part>, entry: nat, t: Trail, arrow: Arrow, numbered: bool)
    requires Owner(arrow, entry).None?
    ensures Grows(parts, entry, t, Draws(t, arrow, numbered))
  {
    forall p: nat ensures By(t.shown + [Shown(arrow, numbered)], p, entry) == By(t.shown, p, entry) {
      ByMore(t.shown, Shown(arrow, numbered), p, entry);
    }
    hide By;
  }

  /** Where `key` is in the middle of its own: it is seen, and has drawn exactly these. */
  ghost predicate Drawing(parts: seq<Part>, entry: nat, key: nat, own: seq<Shown>, t: Trail) {
    && Orderly(parts, entry, t) && key in t.seen && By(t.shown, key, entry) == own
    && MayDraw(parts, entry, t.shown, key)
  }

  /** One more own arrow. */
  lemma OwnArrow(parts: seq<Part>, entry: nat, key: nat, own: seq<Shown>, t: Trail, x: Shown)
    requires Drawing(parts, entry, key, own, t) && Owner(x.arrow, entry) == Some(key)
    ensures var r := Draws(t, x.arrow, x.numbered);
            && Drawing(parts, entry, key, own + [x], r)
            && forall p: nat | p != key :: By(r.shown, p, entry) == By(t.shown, p, entry)
  {
    forall p: nat
      ensures By(t.shown + [x], p, entry) == By(t.shown, p, entry) + if p == key then [x] else [] {
      ByMore(t.shown, x, p, entry);
    }
    hide By, MetByReading, Sent;
    InOrderMore(parts, entry, t.shown, x);
    assert own + [x] != [];
  }

  lemma {:induction false} WritesInOrder(parts: seq<Part>, entry: nat, key: nat, n: nat, t: Trail)
    requires key < |parts| && Drawing(parts, entry, key, [], t) && n <= |parts[key].writes| != 1
    ensures var r := WritesAfter(key, parts[key].writes, n, t);
            && Drawing(parts, entry, key, WritesShown(key, parts[key].writes, n), r)
            && forall p: nat | p != key :: By(r.shown, p, entry) == By(t.shown, p, entry)
    decreases n
  {
    hide Drawing, By;
    if n == 0 {
    } else {
      var tables := parts[key].writes;
      WritesInOrder(parts, entry, key, n - 1, t);
      var x := Shown(Write(key, tables[n - 1]), false);
      OwnArrow(parts, entry, key, WritesShown(key, tables, n - 1), WritesAfter(key, tables, n - 1, t), x);
      assert WritesShown(key, tables, n) == WritesShown(key, tables, n - 1) + [x];
    }
  }

  lemma AnswerInOrder(parts: seq<Part>, entry: nat, own: seq<Shown>, service: string, t: Trail)
    requires Drawing(parts, entry, entry, own, t)
    ensures var r := Draws(Draws(t, Response(service), true), ResponseToBrowser, false);
            && Drawing(parts, entry, entry, own + [Shown(Response(service), true), Shown(ResponseToBrowser, false)], r)
            && forall p: nat | p != entry :: By(r.shown, p, entry) == By(t.shown, p, entry)
  {
    hide Drawing, By;
    var first, second := Shown(Response(service), true), Shown(ResponseToBrowser, false);
    OwnArrow(parts, entry, entry, own, t, first);
    OwnArrow(parts, entry, entry, own + [first], Draws(t, first.arrow, true), second);
    assert own + [first] + [second] == own + [first, second];
  }

  /** What a part draws before it publishes. */
  lemma FirstInOrder(parts: seq<Part>, entry: nat, key: nat, t: Trail)
    requires key < |parts| && Drawing(parts, entry, key, [], t)
    ensures var r := OwnAfter(parts, key, key == entry, t);
            && Drawing(parts, entry, key, FirstShown(parts, key, entry), r)
            && forall p: nat | p != key :: By(r.shown, p, entry) == By(t.shown, p, entry)
  {
    WritesFirst(parts, entry, key, t);
    hide Drawing, By, WritesShown, WritesAfter, Draws;
    var tables := parts[key].writes;
    var own := WritesShown(key, tables, |tables|) + if |tables| > 1 then [Shown(Transaction(key), true)] else [];
    if key == entry { AnswerInOrder(parts, entry, own, parts[key].service, OwnAfter(parts, key, false, t)); }
    else { assert own + [] == own; }
  }

  lemma WritesFirst(parts: seq<Part>, entry: nat, key: nat, t: Trail)
    requires key < |parts| && Drawing(parts, entry, key, [], t)
    ensures var tables, r := parts[key].writes, OwnAfter(parts, key, false, t);
            var own := WritesShown(key, tables, |tables|) + if |tables| > 1 then [Shown(Transaction(key), true)] else [];
            && Drawing(parts, entry, key, own, r)
            && forall p: nat | p != key :: By(r.shown, p, entry) == By(t.shown, p, entry)
  {
    hide Drawing, By;
    var tables := parts[key].writes;
    if |tables| == 1 {
      var x := Shown(Write(key, tables[0]), true);
      OwnArrow(parts, entry, key, [], t, x);
      assert WritesShown(key, tables, 1) + [] == [] + [x];
    } else {
      WritesInOrder(parts, entry, key, |tables|, t);
      var own, x := WritesShown(key, tables, |tables|), Shown(Transaction(key), true);
      OwnArrow(parts, entry, key, own, WritesAfter(key, tables, |tables|, t), x);
      assert own + [] == own;
    }
  }

  // ---------------------------------------------------------------- every visit is in order

  /** A visit draws, of each newly seen part, its own arrows in their order; nothing of any other; and no part before
      it is met. */
  lemma {:induction false} VisitInOrder(parts: seq<Part>, entry: nat, key: nat, t: Trail)
    requires key < |parts| && Orderly(parts, entry, t)
    requires key in t.seen || MayDraw(parts, entry, t.shown, key)
    requires entry in t.seen || key == entry
    ensures var r := After(parts, key, key == entry, t); Orderly(parts, entry, r) && Grows(parts, entry, t, r)
    decreases Unseen(parts, t.seen), 0, 0
  {
    hide By, MayDraw, OwnShown, FirstShown, PublishedAfter, ReadAfter, InOrder, OwnAfter;
    if key in t.seen {
      NothingGrows(parts, entry, t);
    } else {
      var start := t.(seen := t.seen + {key}, visited := t.visited + [key]);
      FirstInOrder(parts, entry, key, start);
      var marked := OwnAfter(parts, key, key == entry, start);
      assert key in Unseen(parts, t.seen) && key !in Unseen(parts, marked.seen);
      var queues := parts[key].publishes;
      PublishesInOrder(parts, entry, key, |queues|, FirstShown(parts, key, entry), marked);
      var published := PublishedAfter(parts, key, |queues|, marked);
      assert queues[..|queues|] == queues;
      OwnIs(parts, key, entry);
      ReadsInOrder(parts, entry, key, |parts|, published);
    }
  }

  lemma OwnIs(parts: seq<Part>, key: nat, entry: nat)
    requires key < |parts|
    ensures OwnShown(parts, key, entry) == FirstShown(parts, key, entry) + PublishesShown(key, parts[key].publishes)
  {
  }

  /** One publish and its deliveries. */
  lemma {:induction false} PublishInOrder(parts: seq<Part>, entry: nat, key: nat, q: string, own: seq<Shown>, t: Trail)
    requires key < |parts| && Drawing(parts, entry, key, own, t) && entry in t.seen
    ensures var r := DeliveredAfter(parts, q, |Consumers(parts, q)|, Draws(t, Publish(key, q), true));
            && Drawing(parts, entry, key, own + [Shown(Publish(key, q), true)], r)
            && GrowsBeside(parts, entry, key, t, r)
    decreases Unseen(parts, t.seen), 2, 0
  {
    hide By, MayDraw, OwnShown, InOrder, DeliveredAfter, Sent, Drawing, Grows, GrowsBeside;
    var x := Shown(Publish(key, q), true);
    var mid := Draws(t, Publish(key, q), true);
    OwnArrow(parts, entry, key, own, t, x);
    LastIsSent(parts, entry, key, own, x, mid);
    DrawingIs(parts, entry, key, own + [x], t, mid);
    var after := DeliveredAfter(parts, q, |Consumers(parts, q)|, mid);
    DeliveriesInOrder(parts, entry, q, |Consumers(parts, q)|, mid);
    StillDrawing(parts, entry, key, own + [x], mid, after);
    NothingBeside(parts, entry, key, t);
    BesideOn(parts, entry, key, t, t, mid, after);
  }

  /** The same, while `key` publishes: it has drawn `own` and the first `n` of its publishes. */
  lemma {:induction false} PublishesInOrder(parts: seq<Part>, entry: nat, key: nat, n: nat, own: seq<Shown>, t: Trail)
    requires key < |parts| && n <= |parts[key].publishes| && Drawing(parts, entry, key, own, t) && entry in t.seen
    ensures var r := PublishedAfter(parts, key, n, t);
            && Drawing(parts, entry, key, own + PublishesShown(key, parts[key].publishes[..n]), r)
            && GrowsBeside(parts, entry, key, t, r)
    decreases Unseen(parts, t.seen), 3, n
  {
    hide By, MayDraw, DeliveredAfter, Drawing, GrowsBeside, PublishesShown, Draws;
    var queues := parts[key].publishes;
    if n == 0 {
      NoPublishes(key, own);
      NothingBeside(parts, entry, key, t);
    } else {
      PublishesInOrder(parts, entry, key, n - 1, own, t);
      var before := PublishedAfter(parts, key, n - 1, t);
      var drawn := own + PublishesShown(key, queues[..n - 1]);
      PublishInOrder(parts, entry, key, queues[n - 1], drawn, before);
      OnePublishMore(key, queues, n, own);
      BesideJoins(parts, entry, key, t, before, PublishedAfter(parts, key, n, t));
    }
  }

  lemma BesideJoins(parts: seq<Part>, entry: nat, key: nat, t: Trail, m: Trail, r: Trail)
    requires GrowsBeside(parts, entry, key, t, m) && GrowsBeside(parts, entry, key, m, r)
    ensures GrowsBeside(parts, entry, key, t, r)
  {
    hide By, OwnShown;
  }

  lemma NoPublishes(key: nat, own: seq<Shown>)
    ensures forall queues: seq<string> :: own + PublishesShown(key, queues[..0]) == own
  {
  }

  lemma OnePublishMore(key: nat, queues: seq<string>, n: nat, own: seq<Shown>)
    requires 0 < n <= |queues|
    ensures own + PublishesShown(key, queues[..n - 1]) + [Shown(Publish(key, queues[n - 1]), true)] ==
            own + PublishesShown(key, queues[..n])
  {
  }

  lemma DrawingIs(parts: seq<Part>, entry: nat, key: nat, own: seq<Shown>, t: Trail, r: Trail)
    requires Drawing(parts, entry, key, own, r) && entry in t.seen && r.seen == t.seen
    ensures Orderly(parts, entry, r) && entry in r.seen
  {
  }

  lemma NothingBeside(parts: seq<Part>, entry: nat, key: nat, t: Trail)
    ensures GrowsBeside(parts, entry, key, t, t)
  {
  }

  lemma BesideOn(parts: seq<Part>, entry: nat, key: nat, t: Trail, before: Trail, mid: Trail, after: Trail)
    requires GrowsBeside(parts, entry, key, t, before) && Grows(parts, entry, mid, after) && mid.seen == before.seen
    requires forall p: nat | p != key :: By(mid.shown, p, entry) == By(before.shown, p, entry)
    ensures GrowsBeside(parts, entry, key, t, after)
  {
    hide By, OwnShown;
  }

  /** From `t` to `r` each newly seen part drew all its own, and of the others only `key` may have drawn. */
  ghost predicate GrowsBeside(parts: seq<Part>, entry: nat, key: nat, t: Trail, r: Trail) {
    && t.seen <= r.seen
    && forall p: nat | p != key ::
         By(r.shown, p, entry) ==
         By(t.shown, p, entry) + if p in r.seen && p !in t.seen then OwnShown(parts, p, entry) else []
  }

  lemma LastIsSent(parts: seq<Part>, entry: nat, key: nat, drawn: seq<Shown>, x: Shown, t: Trail)
    requires Drawing(parts, entry, key, drawn + [x], t) && x.arrow.Publish? && x.arrow.publisher == key && x.numbered
    ensures Sent(t.shown, x.arrow.queue, entry)
  {
    hide By;
    assert (drawn + [x])[|drawn|] == x;
    assert Shown(Publish(key, x.arrow.queue), true) in By(t.shown, key, entry);
  }

  lemma StillDrawing(parts: seq<Part>, entry: nat, key: nat, own: seq<Shown>, t: Trail, r: Trail)
    requires Drawing(parts, entry, key, own, t) && own != []
    requires Orderly(parts, entry, r) && Grows(parts, entry, t, r)
    ensures Drawing(parts, entry, key, own, r)
  {
    hide By, OwnShown, InOrder;
  }

  /** The same, while a queue is delivered. */
  lemma {:induction false} DeliveriesInOrder(parts: seq<Part>, entry: nat, q: string, n: nat, t: Trail)
    requires n <= |Consumers(parts, q)| && Orderly(parts, entry, t) && entry in t.seen && Sent(t.shown, q, entry)
    ensures var r := DeliveredAfter(parts, q, n, t); Orderly(parts, entry, r) && Grows(parts, entry, t, r)
    decreases Unseen(parts, t.seen), 1, n
  {
    hide By, MayDraw, OwnShown, InOrder, Sent, After, Orderly, Consumers, Grows;
    if n == 0 {
      NothingGrows(parts, entry, t);
    } else {
      DeliveriesInOrder(parts, entry, q, n - 1, t);
      var c := Consumers(parts, q)[n - 1];
      var before := DeliveredAfter(parts, q, n - 1, t);
      var mid := Draws(before, Deliver(q, c), true);
      SentStays(parts, entry, t, before, q);
      DeliveryInOrder(parts, entry, q, c, before);
      ConsumerExists(parts, q, n - 1);
      if c == entry { AfterSeen(parts, c, mid); }
      VisitInOrder(parts, entry, c, mid);
      GrowsOn(parts, entry, before, mid, After(parts, c, c == entry, mid));
      GrowsOn(parts, entry, t, before, After(parts, c, c == entry, mid));
    }
  }

  lemma AfterSeen(parts: seq<Part>, key: nat, t: Trail)
    requires key < |parts| && key in t.seen
    ensures After(parts, key, true, t) == After(parts, key, false, t) == t
  {
  }

  lemma DeliveryInOrder(parts: seq<Part>, entry: nat, q: string, c: nat, t: Trail)
    requires Orderly(parts, entry, t) && Sent(t.shown, q, entry)
    ensures var r := Draws(t, Deliver(q, c), true);
            Orderly(parts, entry, r) && Grows(parts, entry, t, r) && MayDraw(parts, entry, r.shown, c)
  {
    hide By, OwnShown, InOrder, Sent, MetByReading;
    InOrderMore(parts, entry, t.shown, Shown(Deliver(q, c), true));
    FreeArrow(parts, entry, t, Deliver(q, c), true);
  }

  /** The same, while readers of what `key` writes are met; `key` has drawn all its own. */
  lemma {:induction false} ReadsInOrder(parts: seq<Part>, entry: nat, key: nat, n: nat, t: Trail)
    requires key < |parts| && n <= |parts| && Orderly(parts, entry, t) && entry in t.seen && key in t.seen
    requires By(t.shown, key, entry) == OwnShown(parts, key, entry)
    ensures var r := ReadAfter(parts, key, n, t); Orderly(parts, entry, r) && Grows(parts, entry, t, r)
    decreases Unseen(parts, t.seen), 1, n
  {
    hide By, OwnShown, InOrder, After, Orderly, Shares;
    if n == 0 {
      NothingGrows(parts, entry, t);
    } else {
      ReadsInOrder(parts, entry, key, n - 1, t);
      var before := ReadAfter(parts, key, n - 1, t);
      if n - 1 !in before.seen && Shares(parts[n - 1].looksAt, parts[key].writes) {
        assert By(before.shown, key, entry) == OwnShown(parts, key, entry);
        assert MetByReading(parts, entry, before.shown, n - 1);
        VisitInOrder(parts, entry, n - 1, before);
        GrowsOn(parts, entry, t, before, After(parts, n - 1, false, before));
      }
    }
  }

  // ---------------------------------------------------------------- who takes from a queue

  lemma {:induction false} MentionsCount(k: nat, consumes: seq<string>, q: string)
    ensures forall i | 0 <= i < |Mentions(k, consumes, q)| :: Mentions(k, consumes, q)[i] == k
    ensures |Mentions(k, consumes, q)| == multiset(consumes)[q]
    decreases |consumes|
  {
    if consumes == [] {
    } else {
      var n := |consumes| - 1;
      MentionsCount(k, consumes[..n], q);
      assert consumes == consumes[..n] + [consumes[n]];
    }
  }

  lemma {:induction false} SameCount(xs: seq<nat>, k: nat, c: nat)
    requires forall i | 0 <= i < |xs| :: xs[i] == k
    ensures multiset(xs)[c] == if c == k then |xs| else 0
    decreases |xs|
  {
    if xs == [] {
    } else {
      var n := |xs| - 1;
      SameCount(xs[..n], k, c);
      assert xs == xs[..n] + [xs[n]];
    }
  }

  /** The parts that take from a queue stand in the order of the parts, each as often as it names the queue. */
  lemma {:induction false} ConsumersExactly(parts: seq<Part>, q: string, c: nat)
    ensures var cs := Consumers(parts, q);
            && (forall i | 0 <= i < |cs| :: cs[i] < |parts|)
            && (forall i, j | 0 <= i < j < |cs| :: cs[i] <= cs[j])
            && multiset(cs)[c] == if c < |parts| then multiset(parts[c].consumes)[q] else 0
    decreases |parts|
  {
    if parts == [] {
    } else {
      hide Mentions;
      var n := |parts| - 1;
      ConsumersExactly(parts[..n], q, c);
      MentionsCount(n, parts[n].consumes, q);
      SameCount(Mentions(n, parts[n].consumes, q), n, c);
    }
  }

  // ---------------------------------------------------------------- the journey

  predicate Unowned(shown: seq<Shown>, entry: nat) {
    forall i | 0 <= i < |shown| :: Owner(shown[i].arrow, entry).None? && !shown[i].arrow.Deliver?
  }

  lemma OpeningIsUnowned(entry: nat, caller: bool)
    ensures Unowned(Opening(caller), entry)
  {
  }

  lemma {:induction false} NobodysArrows(shown: seq<Shown>, p: nat, entry: nat)
    requires Unowned(shown, entry)
    ensures By(shown, p, entry) == []
  {
    if shown == [] {
    } else {
      NobodysArrows(shown[..|shown| - 1], p, entry);
    }
  }

  /** Of the whole journey: every part a request reaches draws all its own arrows, in their order and with their
      steps, and no other part draws any; and each arrow comes only when it may - a part not before it is met,
      a delivery not before its queue was published to. */
  lemma JourneyInOrder(parts: seq<Part>, entry: nat, caller: bool, p: nat)
    requires entry < |parts|
    ensures var shown := Journey(parts, entry, caller).shown;
            && InOrder(parts, entry, shown)
            && By(shown, p, entry) == if Reaches(parts, entry, p) then OwnShown(parts, p, entry) else []
  {
    hide Opening, By, OwnShown, After, Reaches, MetByReading, Sent;
    var start := Trail(Opening(caller), {}, []);
    OpeningIsUnowned(entry, caller);
    forall k: nat ensures By(start.shown, k, entry) == [] { NobodysArrows(start.shown, k, entry); }
    assert InOrder(parts, entry, start.shown);
    VisitInOrder(parts, entry, entry, start);
    JourneyVisitsTheReached(parts, entry, caller);
    assert By(start.shown, p, entry) + OwnShown(parts, p, entry) == OwnShown(parts, p, entry);
  }

  lemma {:induction false} ReadBacksAreSteps(parts: seq<Part>, entry: nat, tables: seq<string>)
    requires entry < |parts|
    ensures forall x | x in ReadBacks(parts, entry, tables) :: x.arrow.ReadBack? && x.numbered
    decreases |tables|
  {
    hide WrittenElsewhere;
    if tables == [] {
    } else {
      ReadBacksAreSteps(parts, entry, tables[..|tables| - 1]);
    }
  }

  lemma OneCountMore<T>(xs: seq<T>, x: T, y: T)
    ensures multiset(xs + [x])[y] == multiset(xs)[y] + if x == y then 1 else 0
  {
  }

  /** The way back: a step for each table that the answering part looks at, does not write and another does, as often as
      it looks at it. */
  lemma {:induction false} ReadBacksExactly(parts: seq<Part>, entry: nat, tables: seq<string>, t: string)
    requires entry < |parts|
    ensures multiset(ReadBacks(parts, entry, tables))[Shown(ReadBack(t), true)] ==
            if t !in parts[entry].writes && WrittenElsewhere(parts, entry, t) then multiset(tables)[t] else 0
    decreases |tables|
  {
    if tables == [] {
    } else {
      hide WrittenElsewhere;
      var n := |tables| - 1;
      ReadBacksExactly(parts, entry, tables[..n], t);
      OneCountMore(tables[..n], tables[n], t);
      OneCountMore(ReadBacks(parts, entry, tables[..n]), Shown(ReadBack(tables[n]), true), Shown(ReadBack(t), true));
      assert tables == tables[..n] + [tables[n]];
    }
  }
}
