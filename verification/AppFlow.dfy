/** The walk of one request through the parts of an application: from the part that answers it, along
    every queue it publishes to and every table another part reads.  It numbers what it meets. */
module AppFlow {
  import opened Options

  datatype Part = Part(service: string, isLoop: bool, writes: seq<string>, looksAt: seq<string>,
                       publishes: seq<string>, consumes: seq<string>)

  /** An arrow of the picture. */
  datatype Arrow =
    | Request | Route | RouteDefault | PageBack | PageBackToBrowser | Call
    | Write(writer: nat, table: string) | Transaction(writer: nat)
    | Response(service: string) | ResponseToBrowser
    | Publish(publisher: nat, queue: string) | Deliver(queue: string, consumer: nat)
    | ReadBack(table: string)

  datatype Edge = Edge(arrow: Arrow, n: Option<nat>)

  datatype How = Asked | Delivered | Read

  // ---------------------------------------------------------------- links

  /** `k`, once for each time the queue is named. */
  function Mentions(k: nat, consumes: seq<string>, q: string): seq<nat> {
    if consumes == [] then []
    else Mentions(k, consumes[..|consumes| - 1], q) + if consumes[|consumes| - 1] == q then [k] else []
  }

  /** The parts that take from a queue, in order; one that names the queue twice is there twice. */
  function Consumers(parts: seq<Part>, q: string): seq<nat> {
    if parts == [] then []
    else Consumers(parts[..|parts| - 1], q) + Mentions(|parts| - 1, parts[|parts| - 1].consumes, q)
  }

  lemma {:induction false} MentionsAre(k: nat, consumes: seq<string>, q: string, c: nat)
    ensures c in Mentions(k, consumes, q) <==> c == k && q in consumes
  {
    if consumes == [] {
    } else {
      MentionsAre(k, consumes[..|consumes| - 1], q, c);
      assert consumes == consumes[..|consumes| - 1] + [consumes[|consumes| - 1]];
    }
  }

  lemma {:induction false} ConsumersAre(parts: seq<Part>, q: string, c: nat)
    ensures c in Consumers(parts, q) <==> c < |parts| && q in parts[c].consumes
  {
    if parts == [] {
    } else {
      ConsumersAre(parts[..|parts| - 1], q, c);
      MentionsAre(|parts| - 1, parts[|parts| - 1].consumes, q, c);
      hide Mentions;
    }
  }

  predicate Shares(xs: seq<string>, ys: seq<string>) {
    exists x :: x in xs && x in ys
  }

  /** `b` takes from a queue `a` publishes to, or reads a table `a` writes. */
  predicate Link(parts: seq<Part>, a: nat, b: nat) {
    && a < |parts| && b < |parts|
    && (Shares(parts[a].publishes, parts[b].consumes) || Shares(parts[b].looksAt, parts[a].writes))
  }

  predicate IsPath(parts: seq<Part>, path: seq<nat>) {
    path != [] && forall i | 0 < i < |path| :: Link(parts, path[i - 1], path[i])
  }

  ghost predicate Reaches(parts: seq<Part>, a: nat, b: nat) {
    exists path :: IsPath(parts, path) && path[0] == a && path[|path| - 1] == b
  }

  lemma ReachesItself(parts: seq<Part>, a: nat)
    ensures Reaches(parts, a, a)
  {
    assert IsPath(parts, [a]);
  }

  lemma ReachesThrough(parts: seq<Part>, a: nat, b: nat, c: nat)
    requires Link(parts, a, b) && Reaches(parts, b, c)
    ensures Reaches(parts, a, c)
  {
    var path :| IsPath(parts, path) && path[0] == b && path[|path| - 1] == c;
    var longer := [a] + path;
    forall i | 0 < i < |longer| ensures Link(parts, longer[i - 1], longer[i]) {
      if i > 1 { assert longer[i - 1] == path[i - 2] && longer[i] == path[i - 1]; }
    }
    assert IsPath(parts, longer);
  }

  /** Everything from position `from` on has all it links to among the visited. */
  ghost predicate Closed(parts: seq<Part>, visited: seq<nat>, from: nat) {
    forall i, w: nat | from <= i < |visited| && Link(parts, visited[i], w) :: w in visited
  }

  lemma {:induction false} ClosedHoldsWhatIsReached(parts: seq<Part>, visited: seq<nat>, path: seq<nat>)
    requires Closed(parts, visited, 0)
    requires IsPath(parts, path) && path[0] in visited
    ensures path[|path| - 1] in visited
  {
    if |path| > 1 {
      var rest := path[1..];
      var i :| 0 <= i < |visited| && visited[i] == path[0];
      assert Link(parts, path[0], path[1]);
      assert path[1] in path;
      forall j | 0 < j < |rest| ensures Link(parts, rest[j - 1], rest[j]) {
        assert rest[j - 1] == path[j] && rest[j] == path[j + 1];
      }
      ClosedHoldsWhatIsReached(parts, visited, rest);
    }
  }

  // ---------------------------------------------------------------- bags of arrows

  type Bag = multiset<Arrow>

  const NOTHING: Bag := multiset{}

  function One(x: Arrow): Bag { multiset{x} }
  function Both(a: Bag, b: Bag): Bag { a + b }

  lemma Associate(a: Bag, b: Bag, c: Bag)
    ensures Both(Both(a, b), c) == Both(a, Both(b, c))
  {
  }

  lemma Swap(a: Bag, b: Bag, c: Bag)
    ensures Both(Both(a, b), c) == Both(Both(a, c), b)
  {
  }

  lemma WithNothing(a: Bag)
    ensures Both(a, NOTHING) == a && Both(NOTHING, a) == a
  {
  }

  // ---------------------------------------------------------------- what one part draws

  function WriteArrows(key: nat, tables: seq<string>): Bag {
    if tables == [] then NOTHING
    else Both(WriteArrows(key, tables[..|tables| - 1]), One(Write(key, tables[|tables| - 1])))
  }

  /** A write each, and one transaction around them when there are several. */
  function Writes(key: nat, tables: seq<string>): Bag {
    if |tables| > 1 then Both(WriteArrows(key, tables), One(Transaction(key))) else WriteArrows(key, tables)
  }

  function DeliverArrows(q: string, cs: seq<nat>): Bag {
    if cs == [] then NOTHING else Both(DeliverArrows(q, cs[..|cs| - 1]), One(Deliver(q, cs[|cs| - 1])))
  }

  function PublishArrows(parts: seq<Part>, key: nat, queues: seq<string>): Bag {
    if queues == [] then NOTHING
    else
      var q := queues[|queues| - 1];
      Both(Both(PublishArrows(parts, key, queues[..|queues| - 1]), One(Publish(key, q))),
           DeliverArrows(q, Consumers(parts, q)))
  }

  /** The part that answers also draws the answer. */
  function Answer(parts: seq<Part>, key: nat, entry: nat): Bag
    requires key < |parts|
  {
    if key == entry then Both(One(Response(parts[key].service)), One(ResponseToBrowser)) else NOTHING
  }

  function Own(parts: seq<Part>, key: nat, entry: nat): Bag {
    if key >= |parts| then NOTHING
    else Both(Both(Writes(key, parts[key].writes), Answer(parts, key, entry)),
              PublishArrows(parts, key, parts[key].publishes))
  }

  /** What these parts draw between them. */
  function Drawn(parts: seq<Part>, visited: seq<nat>, entry: nat): Bag {
    if visited == [] then NOTHING
    else Both(Drawn(parts, visited[..|visited| - 1], entry), Own(parts, visited[|visited| - 1], entry))
  }

  // ---------------------------------------------------------------- numbers

  /** An arrow as it is drawn, with a step of its own or not. */
  datatype Shown = Shown(arrow: Arrow, numbered: bool)

  function BagOf(shown: seq<Shown>): Bag {
    if shown == [] then NOTHING else Both(BagOf(shown[..|shown| - 1]), One(shown[|shown| - 1].arrow))
  }

  /** The numbered arrows, in order of meeting. */
  function StepsOf(shown: seq<Shown>): seq<Arrow> {
    if shown == [] then []
    else
      var last := shown[|shown| - 1];
      StepsOf(shown[..|shown| - 1]) + if last.numbered then [last.arrow] else []
  }

  /** Each numbered arrow has the next number. */
  function EdgesOf(shown: seq<Shown>): seq<Edge> {
    if shown == [] then []
    else
      var init, last := shown[..|shown| - 1], shown[|shown| - 1];
      EdgesOf(init) + [Edge(last.arrow, if last.numbered then Some(|StepsOf(init)| + 1) else None)]
  }

  function Numbered(edges: seq<Edge>): seq<Edge> {
    if edges == [] then []
    else
      var last := edges[|edges| - 1];
      Numbered(edges[..|edges| - 1]) + if last.n.Some? then [last] else []
  }

  /** The numbered edges are the steps, in order, numbered from one. */
  predicate CountsUp(edges: seq<Edge>, steps: seq<Arrow>) {
    var numbered := Numbered(edges);
    |numbered| == |steps| && forall k | 0 <= k < |steps| :: numbered[k] == Edge(steps[k], Some(k + 1))
  }

  lemma {:induction false} EdgesCountUp(shown: seq<Shown>)
    ensures |EdgesOf(shown)| == |shown| && CountsUp(EdgesOf(shown), StepsOf(shown))
  {
    if shown == [] {
    } else {
      var init := shown[..|shown| - 1];
      EdgesCountUp(init);
      assert EdgesOf(shown)[..|shown| - 1] == EdgesOf(init);
    }
  }

  lemma OneMoreShown(shown: seq<Shown>, x: Shown)
    ensures BagOf(shown + [x]) == Both(BagOf(shown), One(x.arrow))
    ensures StepsOf(shown + [x]) == StepsOf(shown) + if x.numbered then [x.arrow] else []
    ensures EdgesOf(shown + [x]) == EdgesOf(shown) + [Edge(x.arrow, if x.numbered then Some(|StepsOf(shown)| + 1) else None)]
  {
    assert (shown + [x])[..|shown|] == shown;
  }

  // ---------------------------------------------------------------- the walk

  predicate Distinct(visited: seq<nat>) {
    forall i, j | 0 <= i < j < |visited| :: visited[i] != visited[j]
  }

  ghost predicate IndexIs(parts: seq<Part>, index: map<string, seq<nat>>) {
    forall q :: (q in index <==> Consumers(parts, q) != []) && (q in index ==> index[q] == Consumers(parts, q))
  }

  /** `q_consumers`. */
  method IndexConsumers(parts: seq<Part>) returns (index: map<string, seq<nat>>)
    ensures IndexIs(parts, index)
  {
    hide IndexIs, AddsMentions;
    index := map[];
    assert parts[..0] == [];
    EmptyIndex();
    for k := 0 to |parts|
      invariant IndexIs(parts[..k], index)
    {
      var consumes := parts[k].consumes;
      ghost var before := index;
      assert consumes[..0] == [];
      NoMentions(before, k);
      for j := 0 to |consumes|
        invariant AddsMentions(before, k, consumes[..j], index)
      {
        var q := consumes[j];
        assert consumes[..j + 1] == consumes[..j] + [q];
        OneMention(before, k, consumes[..j], q, index);
        var was := if q in index then index[q] else [];
        index := index[q := was + [k]];
      }
      assert consumes[..|consumes|] == consumes;
      IndexMore(parts[..k], parts[k], before, index);
      assert parts[..k + 1] == parts[..k] + [parts[k]];
    }
    assert parts[..|parts|] == parts;
  }

  ghost predicate AddsMentions(before: map<string, seq<nat>>, k: nat, consumes: seq<string>, after: map<string,
                               seq<nat>>) {
    && (forall q :: q in after <==> q in before || Mentions(k, consumes, q) != [])
    && (forall q | q in after :: after[q] == (if q in before then before[q] else []) + Mentions(k, consumes, q))
  }

  lemma EmptyIndex()
    ensures IndexIs([], map[])
  {
  }

  lemma NoMentions(index: map<string, seq<nat>>, k: nat)
    ensures AddsMentions(index, k, [], index)
  {
  }

  lemma OneMention(before: map<string, seq<nat>>, k: nat, consumes: seq<string>, q: string, index: map<string,
                   seq<nat>>)
    requires AddsMentions(before, k, consumes, index)
    ensures AddsMentions(before, k, consumes + [q], index[q := (if q in index then index[q] else []) + [k]])
  {
    hide Mentions;
    var had, after := if q in before then before[q] else [], index[q := (if q in index then index[q] else []) + [k]];
    assert had + Mentions(k, consumes, q) + [k] == had + (Mentions(k, consumes, q) + [k]);
    forall p
      ensures Mentions(k, consumes + [q], p) == if p == q then Mentions(k, consumes, p) + [k] else Mentions(k, consumes, p) {
      MentionMore(k, consumes, q, p);
    }
    if q !in index { assert Mentions(k, consumes, q) == []; }
  }

  lemma MentionMore(k: nat, consumes: seq<string>, q: string, p: string)
    ensures Mentions(k, consumes + [q], p) == if p == q then Mentions(k, consumes, p) + [k]
                                              else Mentions(k, consumes, p)
  {
    assert (consumes + [q])[..|consumes|] == consumes;
  }

  lemma IndexMore(parts: seq<Part>, part: Part, before: map<string, seq<nat>>, after: map<string, seq<nat>>)
    requires IndexIs(parts, before) && AddsMentions(before, |parts|, part.consumes, after)
    ensures IndexIs(parts + [part], after)
  {
    hide Mentions;
    forall q ensures Consumers(parts + [part], q) == Consumers(parts, q) + Mentions(|parts|, part.consumes, q) {
      assert (parts + [part])[..|parts|] == parts;
    }
    hide Consumers;
  }

  ghost predicate Marks(seen: set<nat>, visited: seq<nat>) {
    forall p :: p in seen <==> p in visited
  }

  /** Where the walk has come to. */
  datatype Trail = Trail(shown: seq<Shown>, seen: set<nat>, visited: seq<nat>)

  function Draws(t: Trail, arrow: Arrow, numbered: bool): Trail {
    t.(shown := t.shown + [Shown(arrow, numbered)])
  }

  function Unseen(parts: seq<Part>, seen: set<nat>): set<nat> {
    set p: nat | p < |parts| && p !in seen
  }

  function WritesAfter(key: nat, tables: seq<string>, n: nat, t: Trail): (r: Trail)
    requires n <= |tables|
    ensures r.seen == t.seen && r.visited == t.visited
  {
    if n == 0 then t else Draws(WritesAfter(key, tables, n - 1, t), Write(key, tables[n - 1]), false)
  }

  /** What a part draws of its own before the walk goes on: its writes, and the answer if it was asked. */
  function OwnAfter(parts: seq<Part>, key: nat, asked: bool, t: Trail): (r: Trail)
    requires key < |parts|
    ensures r.seen == t.seen && r.visited == t.visited
  {
    var tables := parts[key].writes;
    var written := if |tables| > 1 then Draws(WritesAfter(key, tables, |tables|, t), Transaction(key), true)
                   else if |tables| == 1 then Draws(t, Write(key, tables[0]), true) else t;
    if asked then Draws(Draws(written, Response(parts[key].service), true), ResponseToBrowser, false) else written
  }

  /** The trail after a visit: its own arrows, then every queue and who takes from it, then every reader of what it
      writes, each visited as it is met. */
  function After(parts: seq<Part>, key: nat, asked: bool, t: Trail): (r: Trail)
    requires key < |parts|
    decreases Unseen(parts, t.seen), 0, 0
    ensures t.seen <= r.seen && key in r.seen
  {
    if key in t.seen then t
    else
      var marked := OwnAfter(parts, key, asked, t.(seen := t.seen + {key}, visited := t.visited + [key]));
      assert key in Unseen(parts, t.seen) && key !in Unseen(parts, marked.seen);
      var published := PublishedAfter(parts, key, |parts[key].publishes|, marked);
      ReadAfter(parts, key, |parts|, published)
  }

  function PublishedAfter(parts: seq<Part>, key: nat, n: nat, t: Trail): (r: Trail)
    requires key < |parts| && n <= |parts[key].publishes|
    decreases Unseen(parts, t.seen), 2, n
    ensures t.seen <= r.seen
  {
    if n == 0 then t
    else
      var q := parts[key].publishes[n - 1];
      var before := PublishedAfter(parts, key, n - 1, t);
      DeliveredAfter(parts, q, |Consumers(parts, q)|, Draws(before, Publish(key, q), true))
  }

  function DeliveredAfter(parts: seq<Part>, q: string, n: nat, t: Trail): (r: Trail)
    requires n <= |Consumers(parts, q)|
    decreases Unseen(parts, t.seen), 1, n
    ensures t.seen <= r.seen
    ensures forall j | 0 <= j < n :: Consumers(parts, q)[j] in r.seen
  {
    if n == 0 then t
    else
      var before := DeliveredAfter(parts, q, n - 1, t);
      ConsumerExists(parts, q, n - 1);
      After(parts, Consumers(parts, q)[n - 1], false, Draws(before, Deliver(q, Consumers(parts, q)[n - 1]), true))
  }

  function ReadAfter(parts: seq<Part>, key: nat, n: nat, t: Trail): (r: Trail)
    requires key < |parts| && n <= |parts|
    decreases Unseen(parts, t.seen), 1, n
    ensures t.seen <= r.seen
  {
    if n == 0 then t
    else
      var before := ReadAfter(parts, key, n - 1, t);
      if n - 1 !in before.seen && Shares(parts[n - 1].looksAt, parts[key].writes) then After(parts, n - 1, false, before)
      else before
  }

  lemma ConsumerExists(parts: seq<Part>, q: string, n: nat)
    requires n < |Consumers(parts, q)|
    ensures Consumers(parts, q)[n] < |parts|
  {
    ConsumersAre(parts, q, Consumers(parts, q)[n]);
  }

  class Walk {
    const parts: seq<Part>
    const consumers: map<string, seq<nat>>
    var edges: seq<Edge>
    var steps: seq<Arrow>
    var seen: set<nat>

    ghost var visited: seq<nat>
    ghost var shown: seq<Shown>

    ghost predicate Valid() reads this {
      IndexIs(parts, consumers) && edges == EdgesOf(shown) && steps == StepsOf(shown)
    }

    ghost function Sofar(): Trail reads this { Trail(shown, seen, visited) }

    constructor (parts: seq<Part>, consumers: map<string, seq<nat>>)
      requires IndexIs(parts, consumers)
      ensures Valid() && this.parts == parts && Sofar() == Trail([], {}, [])
    {
      this.parts, this.consumers := parts, consumers;
      edges, steps, seen, visited, shown := [], [], {}, [], [];
    }

    /** `edge`; a numbered one is the next step. */
    method Draw(arrow: Arrow, numbered: bool)
      requires Valid()
      modifies this`edges, this`steps, this`shown
      ensures Valid() && Sofar() == Draws(old(Sofar()), arrow, numbered)
    {
      var n := None;
      OneMoreShown(shown, Shown(arrow, numbered));
      if numbered {
        steps := steps + [arrow];
        n := Some(|steps|);
      }
      edges := edges + [Edge(arrow, n)];
      shown := shown + [Shown(arrow, numbered)];
    }

    method DrawOwn(key: nat, asked: bool)
      requires Valid() && key < |parts|
      modifies this`edges, this`steps, this`shown
      ensures Valid() && Sofar() == OwnAfter(parts, key, asked, old(Sofar()))
    {
      hide EdgesOf, StepsOf, IndexIs;
      var tables := parts[key].writes;
      if |tables| > 1 {
        for i := 0 to |tables|
          invariant Valid() && Sofar() == WritesAfter(key, tables, i, old(Sofar()))
        {
          Draw(Write(key, tables[i]), false);
        }
        Draw(Transaction(key), true);
      } else if |tables| == 1 {
        Draw(Write(key, tables[0]), true);
      }
      if asked {
        Draw(Response(parts[key].service), true);
        Draw(ResponseToBrowser, false);
      }
    }

    /** `visit`: exactly the trail, arrow by arrow. */
    method Visit(key: nat, how: How)
      requires Valid() && key < |parts|
      modifies this`edges, this`steps, this`seen, this`visited, this`shown
      decreases Unseen(parts, seen), 0
      ensures Valid() && Sofar() == After(parts, key, how == Asked, old(Sofar()))
    {
      hide EdgesOf, StepsOf, IndexIs, OwnAfter, PublishedAfter, ReadAfter, DeliveredAfter;
      if key in seen { return; }
      assert key in Unseen(parts, seen);
      seen, visited := seen + {key}, visited + [key];
      DrawOwn(key, how == Asked);
      PublishAll(key);
      ReadAll(key);
    }

    method PublishAll(key: nat)
      requires Valid() && key < |parts|
      modifies this`edges, this`steps, this`seen, this`visited, this`shown
      decreases Unseen(parts, seen), 2
      ensures Valid() && Sofar() == PublishedAfter(parts, key, |parts[key].publishes|, old(Sofar()))
    {
      hide EdgesOf, StepsOf, IndexIs, DeliveredAfter, After;
      for i := 0 to |parts[key].publishes|
        invariant Valid() && Sofar() == PublishedAfter(parts, key, i, old(Sofar())) && old(seen) <= seen
      {
        var q := parts[key].publishes[i];
        Draw(Publish(key, q), true);
        DeliverAll(q);
      }
    }

    method DeliverAll(q: string)
      requires Valid()
      modifies this`edges, this`steps, this`seen, this`visited, this`shown
      decreases Unseen(parts, seen), 1
      ensures Valid() && Sofar() == DeliveredAfter(parts, q, |Consumers(parts, q)|, old(Sofar()))
    {
      hide EdgesOf, StepsOf, Consumers, After;
      var cs := if q in consumers then consumers[q] else [];
      assert cs == Consumers(parts, q);
      for m := 0 to |cs|
        invariant Valid() && Sofar() == DeliveredAfter(parts, q, m, old(Sofar())) && old(seen) <= seen
      {
        ConsumerExists(parts, q, m);
        Draw(Deliver(q, cs[m]), true);
        Visit(cs[m], Delivered);
      }
    }

    method ReadAll(key: nat)
      requires Valid() && key < |parts|
      modifies this`edges, this`steps, this`seen, this`visited, this`shown
      decreases Unseen(parts, seen), 1
      ensures Valid() && Sofar() == ReadAfter(parts, key, |parts|, old(Sofar()))
    {
      hide EdgesOf, StepsOf, IndexIs, After, Shares;
      for k := 0 to |parts|
        invariant Valid() && Sofar() == ReadAfter(parts, key, k, old(Sofar())) && old(seen) <= seen
      {
        if k !in seen && Shares(parts[k].looksAt, parts[key].writes) { Visit(k, Read); }
      }
    }
  }

  // ---------------------------------------------------------------- what a visit does

  /** `after` extends `before` by parts reached from `key`, closed under links. */
  ghost predicate Explored(parts: seq<Part>, key: nat, before: seq<nat>, after: seq<nat>) {
    && before <= after
    && (forall i | |before| <= i < |after| :: Reaches(parts, key, after[i]))
    && Closed(parts, after, |before|)
  }

  /** The same, except that `key`, the first of them, may still have links to follow. */
  ghost predicate Fanning(parts: seq<Part>, key: nat, before: seq<nat>, after: seq<nat>) {
    && before + [key] <= after
    && (forall i | |before| <= i < |after| :: Reaches(parts, key, after[i]))
    && Closed(parts, after, |before| + 1)
  }

  lemma Marked(parts: seq<Part>, key: nat, before: seq<nat>)
    requires key < |parts|
    ensures Fanning(parts, key, before, before + [key])
  {
    ReachesItself(parts, key);
  }

  lemma NothingNew(parts: seq<Part>, key: nat, visited: seq<nat>)
    ensures Explored(parts, key, visited, visited)
  {
  }

  lemma ConsumerIsLinked(parts: seq<Part>, key: nat, q: string, c: nat)
    requires key < |parts| && q in parts[key].publishes && c in Consumers(parts, q)
    ensures Link(parts, key, c)
  {
    ConsumersAre(parts, q, c);
  }

  lemma {:induction false} DrawnJoins(parts: seq<Part>, a: seq<nat>, b: seq<nat>, entry: nat)
    ensures Drawn(parts, a + b, entry) == Both(Drawn(parts, a, entry), Drawn(parts, b, entry))
  {
    hide Own, Both;
    if b == [] {
      assert a + b == a;
      WithNothing(Drawn(parts, a, entry));
    } else {
      var init, last := b[..|b| - 1], b[|b| - 1];
      DrawnJoins(parts, a, init, entry);
      assert (a + b)[..|a + b| - 1] == a + init;
      Associate(Drawn(parts, a, entry), Drawn(parts, init, entry), Own(parts, last, entry));
    }
  }

  /** A visit to a part `key` links to keeps the fan. */
  lemma FannedOut(parts: seq<Part>, key: nat, before: seq<nat>, mid: seq<nat>, after: seq<nat>, c: nat, entry: nat)
    requires Link(parts, key, c) && Fanning(parts, key, before, mid) && Explored(parts, c, mid, after)
    ensures Fanning(parts, key, before, after) && |before| + 1 <= |mid| <= |after|
    ensures Drawn(parts, after[|before| + 1..], entry) ==
            Both(Drawn(parts, mid[|before| + 1..], entry), Drawn(parts, after[|mid|..], entry))
  {
    hide Link, Reaches, Drawn, Both;
    forall i | |before| <= i < |after| ensures Reaches(parts, key, after[i]) {
      if i >= |mid| { ReachesThrough(parts, key, c, after[i]); } else { assert after[i] == mid[i]; }
    }
    ClosedJoins(parts, mid, after, |before| + 1);
    DrawnJoins(parts, mid[|before| + 1..], after[|mid|..], entry);
    assert mid[|before| + 1..] + after[|mid|..] == after[|before| + 1..];
  }

  lemma ClosedJoins(parts: seq<Part>, mid: seq<nat>, after: seq<nat>, from: nat)
    requires mid <= after && Closed(parts, mid, from) && Closed(parts, after, |mid|)
    ensures Closed(parts, after, from)
  {
    hide Link;
    forall i, w: nat | from <= i < |after| && Link(parts, after[i], w) ensures w in after {
      if i < |mid| {
        assert mid[i] == after[i];
        assert w in mid;
        var j :| 0 <= j < |mid| && mid[j] == w;
        assert after[j] == w;
      }
    }
  }

  lemma LinksAreSeen(parts: seq<Part>, key: nat, seen: set<nat>, visited: seq<nat>)
    requires key < |parts| && Marks(seen, visited)
    requires forall j, c | 0 <= j < |parts[key].publishes| && c in Consumers(parts, parts[key].publishes[j]) ::
               c in seen
    requires forall k: nat | k < |parts| && Shares(parts[k].looksAt, parts[key].writes) :: k in seen
    ensures forall w: nat | Link(parts, key, w) :: w in visited
  {
    forall w: nat | Link(parts, key, w) ensures w in visited {
      if Shares(parts[key].publishes, parts[w].consumes) {
        var q :| q in parts[key].publishes && q in parts[w].consumes;
        ConsumersAre(parts, q, w);
        assert w in Consumers(parts, q);
      }
      assert w in seen;
    }
  }

  lemma AllExplored(parts: seq<Part>, key: nat, before: seq<nat>, after: seq<nat>, entry: nat, drawn: Bag)
    requires key < |parts| && Fanning(parts, key, before, after)
    requires forall w: nat | Link(parts, key, w) :: w in after
    ensures Explored(parts, key, before, after) && |before| < |after|
    ensures Both(drawn, Drawn(parts, after[|before|..], entry)) ==
            Both(Both(Both(Both(drawn, Writes(key, parts[key].writes)), Answer(parts, key, entry)),
                      PublishArrows(parts, key, parts[key].publishes)),
                 Drawn(parts, after[|before| + 1..], entry))
  {
    hide Link, Reaches, Both, Writes, Answer, PublishArrows;
    assert after[|before|] == key;
    var writes, answer := Writes(key, parts[key].writes), Answer(parts, key, entry);
    var published := PublishArrows(parts, key, parts[key].publishes);
    var tail := Drawn(parts, after[|before| + 1..], entry);
    DrawnJoins(parts, [key], after[|before| + 1..], entry);
    assert [key] + after[|before| + 1..] == after[|before|..];
    assert [key][..0] == [];
    WithNothing(Own(parts, key, entry));
    Associate(drawn, writes, answer);
    Associate(drawn, Both(writes, answer), published);
    Associate(drawn, Own(parts, key, entry), tail);
  }

  // ---------------------------------------------------------------- every visit does it

  /** In the middle of visiting `key`: it is marked, what was visited since hangs off it and is closed, and
      the arrows are `own` and what those parts drew. */
  ghost predicate Doing(parts: seq<Part>, entry: nat, key: nat, before: seq<nat>, own: Bag, t: Trail) {
    && key < |parts| && entry in t.seen && Marks(t.seen, t.visited) && Distinct(t.visited)
    && |before| < |t.visited| && Fanning(parts, key, before, t.visited)
    && BagOf(t.shown) == Both(own, Drawn(parts, t.visited[|before| + 1..], entry))
  }

  ghost predicate Walked(t: Trail) {
    Marks(t.seen, t.visited) && Distinct(t.visited)
  }

  lemma WritesAdd(key: nat, tables: seq<string>, n: nat, t: Trail)
    requires n <= |tables|
    ensures BagOf(WritesAfter(key, tables, n, t).shown) == Both(BagOf(t.shown), WriteArrows(key, tables[..n]))
  {
    hide BagOf, Both, One;
    if n == 0 {
      WithNothing(BagOf(t.shown));
    } else {
      WritesAdd(key, tables, n - 1, t);
      assert tables[..n][..n - 1] == tables[..n - 1];
      OneMoreShown(WritesAfter(key, tables, n - 1, t).shown, Shown(Write(key, tables[n - 1]), false));
      Associate(BagOf(t.shown), WriteArrows(key, tables[..n - 1]), One(Write(key, tables[n - 1])));
    }
  }

  lemma OwnAdds(parts: seq<Part>, key: nat, asked: bool, entry: nat, t: Trail)
    requires key < |parts| && (asked <==> key == entry)
    ensures BagOf(OwnAfter(parts, key, asked, t).shown) ==
            Both(Both(BagOf(t.shown), Writes(key, parts[key].writes)), Answer(parts, key, entry))
  {
    hide BagOf, Both, One;
    var tables := parts[key].writes;
    var was, response := BagOf(t.shown), Response(parts[key].service);
    WritesAdd(key, tables, |tables|, t);
    assert tables[..|tables|] == tables;
    var written := OwnAfter(parts, key, false, t);
    if |tables| > 1 {
      OneMoreShown(WritesAfter(key, tables, |tables|, t).shown, Shown(Transaction(key), true));
      Associate(was, WriteArrows(key, tables), One(Transaction(key)));
    } else if |tables| == 1 {
      OneMoreShown(t.shown, Shown(Write(key, tables[0]), true));
      assert tables[..|tables| - 1] == [];
      assert WriteArrows(key, tables) == Both(WriteArrows(key, []), One(Write(key, tables[0])));
      WithNothing(One(Write(key, tables[0])));
    } else {
      WithNothing(was);
    }
    assert BagOf(written.shown) == Both(was, Writes(key, tables));
    WithNothing(BagOf(written.shown));
    OneMoreShown(written.shown, Shown(response, true));
    OneMoreShown(written.shown + [Shown(response, true)], Shown(ResponseToBrowser, false));
    Associate(BagOf(written.shown), One(response), One(ResponseToBrowser));
  }

  /** What is newly visited is reached from `key` and all it links to has been visited; and the newly visited
      draw their own arrows, once each. */
  lemma {:induction false} VisitExplores(parts: seq<Part>, entry: nat, key: nat, asked: bool, t: Trail)
    requires key < |parts| && Walked(t) && if asked then key == entry && t.seen == {} else entry in t.seen
    decreases Unseen(parts, t.seen), 0, 0
    ensures var r := After(parts, key, asked, t);
            && Walked(r) && |t.visited| <= |r.visited| && Explored(parts, key, t.visited, r.visited)
            && BagOf(r.shown) == Both(BagOf(t.shown), Drawn(parts, r.visited[|t.visited|..], entry))
  {
    hide BagOf, Both, Own, Writes, Answer, PublishArrows, Explored, Link, Shares, OwnAfter, PublishedAfter, ReadAfter,
         Fanning, Drawn;
    var before, drawn := t.visited, BagOf(t.shown);
    if key in t.seen {
      NothingDrawn(parts, before, entry);
      WithNothing(drawn);
      NothingNew(parts, key, t.visited);
    } else {
      var start := t.(seen := t.seen + {key}, visited := t.visited + [key]);
      var marked := OwnAfter(parts, key, asked, start);
      assert key in Unseen(parts, t.seen) && key !in Unseen(parts, marked.seen);
      var own := Both(Both(drawn, Writes(key, parts[key].writes)), Answer(parts, key, entry));
      OwnAdds(parts, key, asked, entry, start);
      Marked(parts, key, before);
      NothingDrawn(parts, marked.visited, entry);
      WithNothing(own);
      var published := PublishedAfter(parts, key, |parts[key].publishes|, marked);
      PublishesExplore(parts, entry, key, |parts[key].publishes|, before, own, marked);
      assert parts[key].publishes[..|parts[key].publishes|] == parts[key].publishes;
      var done := ReadAfter(parts, key, |parts|, published);
      ReadsExplore(parts, entry, key, |parts|, before, Both(own, PublishArrows(parts, key, parts[key].publishes)),
                   published);
      LinksAreSeen(parts, key, done.seen, done.visited);
      AllExplored(parts, key, before, done.visited, entry, drawn);
    }
  }

  lemma NothingDrawn(parts: seq<Part>, visited: seq<nat>, entry: nat)
    ensures Drawn(parts, visited[|visited|..], entry) == NOTHING
  {
  }

  lemma {:induction false} PublishesExplore(parts: seq<Part>, entry: nat, key: nat, n: nat, before: seq<nat>, own: Bag,
                                            t: Trail)
    requires Doing(parts, entry, key, before, own, t) && n <= |parts[key].publishes|
    decreases Unseen(parts, t.seen), 2, n
    ensures var r := PublishedAfter(parts, key, n, t);
            && Doing(parts, entry, key, before, Both(own, PublishArrows(parts, key, parts[key].publishes[..n])), r)
            && forall j, c | 0 <= j < n && c in Consumers(parts, parts[key].publishes[j]) :: c in r.seen
  {
    hide BagOf, Both, One, DeliverArrows, Fanning, Drawn, Distinct, Marks, Consumers;
    var queues := parts[key].publishes;
    if n == 0 {
      WithNothing(own);
    } else {
      var q := queues[n - 1];
      PublishesExplore(parts, entry, key, n - 1, before, own, t);
      assert queues[..n][..n - 1] == queues[..n - 1];
      var mid := PublishedAfter(parts, key, n - 1, t);
      var published, rest := PublishArrows(parts, key, queues[..n - 1]), Drawn(parts, mid.visited[|before| + 1..], entry);
      OneMoreShown(mid.shown, Shown(Publish(key, q), true));
      Swap(Both(own, published), rest, One(Publish(key, q)));
      Associate(own, published, One(Publish(key, q)));
      var drawn := Both(own, Both(published, One(Publish(key, q))));
      DeliveriesExplore(parts, entry, key, q, |Consumers(parts, q)|, before, drawn, Draws(mid, Publish(key, q), true));
      assert Consumers(parts, q)[..|Consumers(parts, q)|] == Consumers(parts, q);
      Associate(own, Both(published, One(Publish(key, q))), DeliverArrows(q, Consumers(parts, q)));
    }
  }

  lemma {:induction false} DeliveriesExplore(parts: seq<Part>, entry: nat, key: nat, q: string, n: nat,
                                             before: seq<nat>, own: Bag, t: Trail)
    requires Doing(parts, entry, key, before, own, t) && q in parts[key].publishes && n <= |Consumers(parts, q)|
    decreases Unseen(parts, t.seen), 1, n
    ensures Doing(parts, entry, key, before, Both(own, DeliverArrows(q, Consumers(parts, q)[..n])),
                  DeliveredAfter(parts, q, n, t))
  {
    hide BagOf, Both, One, Fanning, Drawn, Link, Consumers, Explored, Distinct, Marks, After;
    var cs := Consumers(parts, q);
    if n == 0 {
      WithNothing(own);
    } else {
      DeliveriesExplore(parts, entry, key, q, n - 1, before, own, t);
      assert cs[..n][..n - 1] == cs[..n - 1];
      assert cs[n - 1] in cs;
      ConsumerIsLinked(parts, key, q, cs[n - 1]);
      ConsumerExists(parts, q, n - 1);
      var was := DeliveredAfter(parts, q, n - 1, t);
      var mid := Draws(was, Deliver(q, cs[n - 1]), true);
      var sent, rest := DeliverArrows(q, cs[..n - 1]), Drawn(parts, mid.visited[|before| + 1..], entry);
      OneMoreShown(was.shown, Shown(Deliver(q, cs[n - 1]), true));
      Swap(Both(own, sent), rest, One(Deliver(q, cs[n - 1])));
      Associate(own, sent, One(Deliver(q, cs[n - 1])));
      VisitExplores(parts, entry, cs[n - 1], false, mid);
      var after := After(parts, cs[n - 1], false, mid);
      FannedOut(parts, key, before, mid.visited, after.visited, cs[n - 1], entry);
      Associate(Both(own, Both(sent, One(Deliver(q, cs[n - 1])))), rest,
                Drawn(parts, after.visited[|mid.visited|..], entry));
    }
  }

  lemma {:induction false} ReadsExplore(parts: seq<Part>, entry: nat, key: nat, n: nat, before: seq<nat>, own: Bag,
                                        t: Trail)
    requires Doing(parts, entry, key, before, own, t) && n <= |parts|
    decreases Unseen(parts, t.seen), 1, n
    ensures var r := ReadAfter(parts, key, n, t);
            && Doing(parts, entry, key, before, own, r)
            && forall j: nat | j < n && Shares(parts[j].looksAt, parts[key].writes) :: j in r.seen
  {
    hide BagOf, Both, One, Fanning, Drawn, Explored, Shares, Distinct, Marks, After;
    if n == 0 {
    } else {
      ReadsExplore(parts, entry, key, n - 1, before, own, t);
      var mid := ReadAfter(parts, key, n - 1, t);
      if n - 1 !in mid.seen && Shares(parts[n - 1].looksAt, parts[key].writes) {
        VisitExplores(parts, entry, n - 1, false, mid);
        var after := After(parts, n - 1, false, mid);
        FannedOut(parts, key, before, mid.visited, after.visited, n - 1, entry);
        Associate(own, Drawn(parts, mid.visited[|before| + 1..], entry),
                  Drawn(parts, after.visited[|mid.visited|..], entry));
      }
    }
  }

  // ---------------------------------------------------------------- build

  /** The arrows before the walk: through the interface when a default part calls the answering service. */
  function Opening(caller: bool): seq<Shown> {
    if caller then
      [Shown(Request, true), Shown(RouteDefault, true), Shown(PageBack, true), Shown(PageBackToBrowser, false),
       Shown(Call, true), Shown(Route, false)]
    else [Shown(Request, true), Shown(Route, true), Shown(RouteDefault, false)]
  }

  method DrawOpening(walk: Walk, caller: bool)
    requires walk.Valid() && walk.shown == []
    modifies walk`edges, walk`steps, walk`shown
    ensures walk.Valid() && walk.shown == Opening(caller)
  {
    hide EdgesOf, StepsOf, IndexIs;
    walk.Draw(Request, true);
    if caller {
      walk.Draw(RouteDefault, true);
      walk.Draw(PageBack, true);
      walk.Draw(PageBackToBrowser, false);
      walk.Draw(Call, true);
      walk.Draw(Route, false);
    } else {
      walk.Draw(Route, true);
      walk.Draw(RouteDefault, false);
    }
  }

  predicate WrittenElsewhere(parts: seq<Part>, entry: nat, t: string) {
    exists k :: 0 <= k < |parts| && k != entry && t in parts[k].writes
  }

  /** What the visitor sees on the next read: tables the answering part looks at and only others write. */
  function ReadBacks(parts: seq<Part>, entry: nat, tables: seq<string>): seq<Shown>
    requires entry < |parts|
  {
    if tables == [] then []
    else
      var before, t := ReadBacks(parts, entry, tables[..|tables| - 1]), tables[|tables| - 1];
      if t !in parts[entry].writes && WrittenElsewhere(parts, entry, t) then before + [Shown(ReadBack(t), true)]
      else before
  }

  method DrawReadBacks(walk: Walk, entry: nat)
    requires walk.Valid() && entry < |walk.parts|
    modifies walk`edges, walk`steps, walk`shown
    ensures walk.Valid() && walk.shown == old(walk.shown) + ReadBacks(walk.parts, entry, walk.parts[entry].looksAt)
  {
    hide EdgesOf, StepsOf, IndexIs, WrittenElsewhere;
    var parts := walk.parts;
    var tables := parts[entry].looksAt;
    assert tables[..0] == [];
    for i := 0 to |tables|
      invariant walk.Valid() && walk.shown == old(walk.shown) + ReadBacks(parts, entry, tables[..i])
    {
      var t := tables[i];
      assert tables[..i + 1][..i] == tables[..i];
      if t in parts[entry].writes { continue; }
      if WrittenElsewhere(parts, entry, t) { walk.Draw(ReadBack(t), true); }
    }
    assert tables[..|tables|] == tables;
  }

  datatype Outcome = Refused(unreached: seq<nat>) | Picture(edges: seq<Edge>, steps: seq<Arrow>)

  /** A loop part no request reaches. */
  ghost predicate Unreached(parts: seq<Part>, entry: nat, k: nat) {
    k < |parts| && parts[k].isLoop && !Reaches(parts, entry, k)
  }

  /** The whole walk, from the answering part. */
  function Journey(parts: seq<Part>, entry: nat, caller: bool): Trail
    requires entry < |parts|
  {
    After(parts, entry, true, Trail(Opening(caller), {}, []))
  }

  /** `build`: it refuses exactly when a loop is not reached, naming each; otherwise the picture is the journey's, arrow
      by arrow, and the way back. */
  method Build(parts: seq<Part>, entry: nat, caller: bool) returns (r: Outcome)
    requires entry < |parts|
    ensures r.Refused? <==> exists k: nat :: Unreached(parts, entry, k)
    ensures r.Refused? ==> forall k: nat :: k in r.unreached <==> Unreached(parts, entry, k)
    ensures r.Picture? ==>
              var shown := Journey(parts, entry, caller).shown + ReadBacks(parts, entry, parts[entry].looksAt);
              r.edges == EdgesOf(shown) && r.steps == StepsOf(shown)
  {
    hide EdgesOf, StepsOf, ReadBacks, Opening, After, Reaches, IndexIs, Unreached, Distinct, Drawn, BagOf;
    var consumers := IndexConsumers(parts);
    var walk := new Walk(parts, consumers);
    DrawOpening(walk, caller);
    walk.Visit(entry, Asked);
    JourneyVisitsTheReached(parts, entry, caller);
    var unreached := FindUnreached(parts, entry, walk.seen);
    if unreached != [] {
      assert Unreached(parts, entry, unreached[0]);
      r := Refused(unreached);
      return;
    }
    DrawReadBacks(walk, entry);
    r := Picture(walk.edges, walk.steps);
  }

  method FindUnreached(parts: seq<Part>, entry: nat, seen: set<nat>) returns (unreached: seq<nat>)
    requires forall p: nat :: p in seen <==> Reaches(parts, entry, p)
    ensures forall k: nat :: k in unreached <==> Unreached(parts, entry, k)
  {
    hide Reaches;
    unreached := [];
    for k := 0 to |parts|
      invariant forall j: nat :: j in unreached <==> j < k && Unreached(parts, entry, j)
    {
      if k !in seen && parts[k].isLoop { unreached := unreached + [k]; }
    }
  }

  /** The journey visits exactly the parts reached from the answering one, each once; its arrows are those before the
      walk and each visited part's own, each as often as that part draws it. */
  lemma JourneyVisitsTheReached(parts: seq<Part>, entry: nat, caller: bool)
    requires entry < |parts|
    ensures var j := Journey(parts, entry, caller);
            && (forall p: nat :: p in j.seen <==> Reaches(parts, entry, p))
            && (forall p: nat :: p in j.visited <==> Reaches(parts, entry, p)) && Distinct(j.visited)
            && BagOf(j.shown) == Both(BagOf(Opening(caller)), Drawn(parts, j.visited, entry))
  {
    hide BagOf, Opening, After, Drawn, Reaches, Both;
    VisitExplores(parts, entry, entry, true, Trail(Opening(caller), {}, []));
    var j := Journey(parts, entry, caller);
    assert j.visited[0..] == j.visited;
    ReachedIsVisited(parts, entry, j.visited);
  }

  /** The picture's numbered edges are its steps, in order of meeting, numbered from one. */
  lemma JourneyCountsUp(parts: seq<Part>, entry: nat, caller: bool)
    requires entry < |parts|
    ensures var shown := Journey(parts, entry, caller).shown + ReadBacks(parts, entry, parts[entry].looksAt);
            CountsUp(EdgesOf(shown), StepsOf(shown))
  {
    EdgesCountUp(Journey(parts, entry, caller).shown + ReadBacks(parts, entry, parts[entry].looksAt));
  }

  lemma ReachedIsVisited(parts: seq<Part>, entry: nat, visited: seq<nat>)
    requires Explored(parts, entry, [], visited) && entry in visited
    ensures forall p: nat :: p in visited <==> Reaches(parts, entry, p)
  {
    forall p: nat ensures p in visited <==> Reaches(parts, entry, p) {
      if Reaches(parts, entry, p) {
        var path :| IsPath(parts, path) && path[0] == entry && path[|path| - 1] == p;
        ClosedHoldsWhatIsReached(parts, visited, path);
      }
    }
  }
}
