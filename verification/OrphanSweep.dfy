/** What is alive and in no state: the sweep after a teardown. */
module OrphanSweep {
  import opened Events
  import opened Scope
  import opened Arns

  // ---------------------------------------------------------------- what the state holds

  predicate EndsStar(v: string) {
    |v| >= 2 && v[|v| - 2..] == ":*"
  }

  /** `add`: the value, and without its `:*` when it has one. */
  function Spellings(v: string): set<string> {
    if v == "" then {} else if EndsStar(v) then {v, v[..|v| - 2]} else {v}
  }

  function SpellingsOf(value: Json): set<string> {
    if value.Str? then Spellings(value.s) else {}
  }

  const KEYS := {"arn", "id"}

  /** Every spelling of every `arn` and `id`, however deep. */
  ghost function Identifiers(node: Json): set<string> {
    match node
    case Obj(fields) =>
      (set k, v | k in fields && k in KEYS && v in SpellingsOf(fields[k]) :: v)
          + (set k, v | k in fields && v in Identifiers(fields[k]) :: v)
    case Arr(elements) => set i, v | 0 <= i < |elements| && v in Identifiers(elements[i]) :: v
    case _ => {}
  }

  /** What the items under these keys hold. */
  ghost function UnderKeys(fields: map<string, Json>, keys: set<string>): set<string> {
    (set k, v | k in keys && k in fields && k in KEYS && v in SpellingsOf(fields[k]) :: v)
        + (set k, v | k in keys && k in fields && v in Identifiers(fields[k]) :: v)
  }

  ghost function Among(elements: seq<Json>): set<string> {
    set i, v | 0 <= i < |elements| && v in Identifiers(elements[i]) :: v
  }

  lemma OneMoreKey(fields: map<string, Json>, keys: set<string>, k: string)
    requires k in fields
    ensures UnderKeys(fields, keys + {k}) ==
            UnderKeys(fields, keys) + (if k in KEYS then SpellingsOf(fields[k]) else {}) + Identifiers(fields[k])
  {
    hide Identifiers, SpellingsOf;
  }

  lemma OneMoreElement(elements: seq<Json>, i: nat)
    requires i < |elements|
    ensures Among(elements[..i + 1]) == Among(elements[..i]) + Identifiers(elements[i])
  {
    hide Identifiers;
    assert elements[..i + 1][i] == elements[i];
    assert forall j | 0 <= j < i :: elements[..i + 1][j] == elements[j] && elements[..i][j] == elements[j];
  }

  lemma WholeTree(node: Json)
    ensures node.Obj? ==> Identifiers(node) == UnderKeys(node.fields, node.fields.Keys)
    ensures node.Arr? ==> Identifiers(node) == Among(node.elements)
    ensures !node.Obj? && !node.Arr? ==> Identifiers(node) == {}
  {
  }

  /** A text is known under itself, and under what is left when a `:*` is taken off its end. */
  lemma SpellingsExactly(v: string, x: string)
    ensures x in Spellings(v) <==> v != "" && (x == v || v == x + ":*")
  {
    if EndsStar(v) { assert v == v[..|v| - 2] + ":*"; }
    if v == x + ":*" { assert v[|v| - 2..] == ":*" && v[..|v| - 2] == x; }
  }

  class Walker {
    var found: set<string>

    constructor () ensures found == {} { found := {}; }

    method Add(value: Json)
      modifies this
      ensures found == old(found) + SpellingsOf(value)
    {
      if !value.Str? || value.s == "" { return; }
      found := found + {value.s};
      if EndsStar(value.s) { found := found + {value.s[..|value.s| - 2]}; }
    }

    /** `walk`. */
    method Walk(node: Json)
      modifies this
      decreases node
      ensures found == old(found) + Identifiers(node)
    {
      hide Identifiers, UnderKeys, Among, SpellingsOf;
      WholeTree(node);
      match node {
        case Obj(fields) =>
          var todo := fields.Keys;
          NoKeys(fields);
          while todo != {}
            invariant todo <= fields.Keys
            invariant found == old(found) + UnderKeys(fields, fields.Keys - todo)
            decreases |todo|
          {
            var k :| k in todo;
            OneMoreKey(fields, fields.Keys - todo, k);
            if k in KEYS { Add(fields[k]); }
            Walk(fields[k]);
            assert fields.Keys - todo + {k} == fields.Keys - (todo - {k});
            todo := todo - {k};
          }
          assert fields.Keys - todo == fields.Keys;
        case Arr(elements) =>
          NoElements(elements);
          for i := 0 to |elements|
            invariant found == old(found) + Among(elements[..i])
          {
            OneMoreElement(elements, i);
            Walk(elements[i]);
          }
          assert elements[..|elements|] == elements;
        case _ =>
      }
    }
  }

  lemma NoKeys(fields: map<string, Json>)
    ensures UnderKeys(fields, fields.Keys - fields.Keys) == {}
  {
  }

  lemma NoElements(elements: seq<Json>)
    ensures Among(elements[..0]) == {}
  {
  }

  /** A way down a tree: into an element or under a key. */
  datatype Turn = Element(i: nat) | Under(key: string)

  predicate Leads(node: Json, path: seq<Turn>, to: Json) {
    if path == [] then node == to
    else match path[0]
      case Element(i) => node.Arr? && i < |node.elements| && Leads(node.elements[i], path[1..], to)
      case Under(key) => node.Obj? && key in node.fields && Leads(node.fields[key], path[1..], to)
  }

  /** Depth does not hide anything: an `arn` or `id` at the end of any path is among the identifiers. */
  lemma {:induction false} NothingIsTooDeep(node: Json, path: seq<Turn>, at: Json, key: string, v: string)
    requires Leads(node, path, at) && at.Obj? && key in KEYS && key in at.fields && v in SpellingsOf(at.fields[key])
    ensures v in Identifiers(node)
    decreases |path|
  {
    if path == [] {
    } else {
      match path[0]
      case Element(i) => NothingIsTooDeep(node.elements[i], path[1..], at, key, v);
      case Under(k) => NothingIsTooDeep(node.fields[k], path[1..], at, key, v);
    }
  }

  /** And nothing is invented: every identifier is a spelling of an `arn` or an `id` at the end of some path. */
  lemma {:induction false} NothingIsInvented(node: Json, v: string)
    returns (path: seq<Turn>, at: Json, key: string)
    requires v in Identifiers(node)
    ensures Leads(node, path, at) && at.Obj? && key in KEYS && key in at.fields && v in SpellingsOf(at.fields[key])
    decreases node
  {
    hide SpellingsOf;
    match node
    case Obj(fields) =>
      if k :| k in fields && k in KEYS && v in SpellingsOf(fields[k]) {
        path, at, key := [], node, k;
      } else {
        var k :| k in fields && v in Identifiers(fields[k]);
        var rest;
        rest, at, key := NothingIsInvented(fields[k], v);
        path := [Under(k)] + rest;
      }
    case Arr(elements) =>
      var i :| 0 <= i < |elements| && v in Identifiers(elements[i]);
      var rest;
      rest, at, key := NothingIsInvented(elements[i], v);
      path := [Element(i)] + rest;
  }

  // ---------------------------------------------------------------- is it managed

  /** The bare id an ARN ends in. */
  function TailOf(arn: string): string {
    AfterLast(AfterLast(arn, ':'), '/')
  }

  /** `is_managed`. */
  predicate IsManaged(arn: string, identifiers: set<string>) {
    || arn in identifiers
    || (EndsStar(arn) && arn[..|arn| - 2] in identifiers)
    || (TailOf(arn) != "" && TailOf(arn) in identifiers)
  }

  /** An id stands at the end of an ARN: at its start, or behind a colon or a slash, and with neither in it. */
  predicate EndsIn(arn: string, head: string, id: string) {
    && arn == head + id && ':' !in id && '/' !in id
    && (head == "" || head[|head| - 1] == ':' || head[|head| - 1] == '/')
  }

  lemma TailEnds(arn: string) returns (head: string)
    ensures EndsIn(arn, head, TailOf(arn))
  {
    hide AfterLast;
    var last := AfterLast(arn, ':');
    var before := AfterLastEnds(arn, ':');
    var within := AfterLastEnds(last, '/');
    head := before + within;
    assert ':' !in AfterLast(last, '/') by {
      assert forall k | 0 <= k < |AfterLast(last, '/')| :: AfterLast(last, '/')[k] == last[|within| + k];
    }
  }

  lemma TailIsOne(arn: string, head: string, id: string)
    requires EndsIn(arn, head, id)
    ensures TailOf(arn) == id
  {
    var before := AfterLast(head, ':');
    AfterLastAppends(head, id, ':');
    AfterLastAppends(before, id, '/');
    if before != "" { assert before[|before| - 1] == head[|head| - 1]; }
  }

  /** Managed is: held as it is, or without its `:*`, or under the id it ends in - and nothing looser. */
  lemma ManagedExactly(arn: string, identifiers: set<string>)
    ensures IsManaged(arn, identifiers) <==>
            || arn in identifiers
            || (exists g :: g in identifiers && arn == g + ":*")
            || (exists head, id :: id in identifiers && id != "" && EndsIn(arn, head, id))
  {
    hide TailOf;
    var head := TailEnds(arn);
    forall before, id | EndsIn(arn, before, id) ensures id == TailOf(arn) { TailIsOne(arn, before, id); }
    if EndsStar(arn) { assert arn == arn[..|arn| - 2] + ":*"; }
    if g :| g in identifiers && arn == g + ":*" { assert arn[|arn| - 2..] == ":*" && arn[..|arn| - 2] == g; }
  }

  // ---------------------------------------------------------------- sorted

  function PutInOrder(x: string, ys: seq<string>): seq<string> {
    if ys == [] || !Less(ys[0], x) then [x] + ys else [ys[0]] + PutInOrder(x, ys[1..])
  }

  /** `sorted`. */
  function Sorted(xs: seq<string>): seq<string> {
    if xs == [] then [] else PutInOrder(xs[0], Sorted(xs[1..]))
  }

  lemma {:induction false} PutKeeps(x: string, ys: seq<string>)
    ensures multiset(PutInOrder(x, ys)) == multiset{x} + multiset(ys)
  {
    if ys == [] {
    } else {
      assert ys == [ys[0]] + ys[1..];
      if Less(ys[0], x) { PutKeeps(x, ys[1..]); }
    }
  }

  /** Sorting loses nothing and adds nothing ... */
  lemma {:induction false} SortedKeeps(xs: seq<string>)
    ensures multiset(Sorted(xs)) == multiset(xs)
    ensures forall x :: x in Sorted(xs) <==> x in xs
  {
    if xs == [] {
    } else {
      SortedKeeps(xs[1..]);
      PutKeeps(xs[0], Sorted(xs[1..]));
      assert xs == [xs[0]] + xs[1..];
    }
    forall x ensures x in Sorted(xs) <==> x in xs {
      assert x in Sorted(xs) <==> x in multiset(Sorted(xs));
      assert x in xs <==> x in multiset(xs);
    }
  }

  predicate InOrder(xs: seq<string>) {
    forall j, k | 0 <= j < k < |xs| :: !Less(xs[k], xs[j])
  }

  lemma {:induction false} PutInOrderIsInOrder(x: string, ys: seq<string>)
    requires InOrder(ys)
    ensures InOrder(PutInOrder(x, ys))
  {
    if ys == [] {
    } else {
      if Less(ys[0], x) {
        PutInOrderIsInOrder(x, ys[1..]);
        PutKeeps(x, ys[1..]);
        var rest := PutInOrder(x, ys[1..]);
        forall k | 0 <= k < |rest| ensures !Less(rest[k], ys[0]) {
          assert rest[k] in multiset(rest);
          LessAsymmetric(ys[0], x);
          assert forall y | y in ys[1..] :: !Less(y, ys[0]);
        }
      } else {
        forall k | 0 <= k < |ys| ensures !Less(ys[k], x) {
          if Less(ys[k], x) { NotLessBelow(ys[k], x, ys[0]); }
        }
      }
    }
  }

  lemma NotLessBelow(a: string, x: string, b: string)
    requires Less(a, x) && !Less(b, x)
    ensures Less(a, b)
  {
    LessTotal(x, b);
    if Less(x, b) { LessTransitive(a, x, b); }
  }

  /** ... and orders them. */
  lemma {:induction false} SortedIsInOrder(xs: seq<string>)
    ensures InOrder(Sorted(xs))
  {
    if xs == [] {
    } else {
      SortedIsInOrder(xs[1..]);
      PutInOrderIsInOrder(xs[0], Sorted(xs[1..]));
    }
  }

  // ---------------------------------------------------------------- the decision

  datatype Decision =
    | Refuse(silent: seq<string>)
    | Orphans(orphans: seq<string>, unconfirmed: seq<string>, notPresent: nat)
    | Clean(notPresent: nat)

  datatype Fate = Orphan | Managed | Unchecked | NotThere

  /** What the sweep makes of one discovered ARN. */
  function FateOf(arn: string, present: set<string>, unconfirmed: seq<string>, identifiers: set<string>): Fate {
    if arn in present then (if IsManaged(arn, identifiers) then Managed else Orphan)
    else if arn in unconfirmed then Unchecked else NotThere
  }

  function WithFate(arns: seq<string>, fate: Fate, present: set<string>, unconfirmed: seq<string>,
                    identifiers: set<string>): (r: seq<string>)
    ensures forall a :: a in r <==> a in arns && a != "" && FateOf(a, present, unconfirmed, identifiers) == fate
  {
    if arns == [] then []
    else
      (if arns[0] != "" && FateOf(arns[0], present, unconfirmed, identifiers) == fate then [arns[0]] else [])
      + WithFate(arns[1..], fate, present, unconfirmed, identifiers)
  }

  function SilentAmong(controls: seq<(string, nat)>): (r: seq<string>)
    ensures r == [] <==> forall c | c in controls :: c.1 != 0
  {
    if controls == [] then []
    else (if controls[0].1 == 0 then [controls[0].0] else []) + SilentAmong(controls[1..])
  }

  /** `decide_sweep`; a control is a channel's name and how many answers it gave. */
  function DecideSweep(tagged: seq<string>, controls: seq<(string, nat)>, identifiers: set<string>,
                       present: set<string>, unconfirmed: seq<string>): Decision {
    var unchecked := SortedSet(unconfirmed);
    var silent := SilentAmong(controls);
    if silent != [] then Refuse(Sorted(silent))
    else
      var notPresent := WithFate(tagged, NotThere, present, unchecked, identifiers);
      var orphans := Sorted(WithFate(tagged, Orphan, present, unchecked, identifiers));
      if orphans != [] || unchecked != [] then Orphans(orphans, unchecked, |notPresent|) else Clean(|notPresent|)
  }

  /** Clean means every channel answered, nothing went unchecked, and everything there is managed; a silent channel
      is never clean. */
  lemma CleanExactly(tagged: seq<string>, controls: seq<(string, nat)>, identifiers: set<string>, present: set<string>,
                     unconfirmed: seq<string>)
    ensures var d := DecideSweep(tagged, controls, identifiers, present, unconfirmed);
            && (d.Refuse? <==> exists c :: c in controls && c.1 == 0)
            && (d.Clean? <==>
                  && (forall c | c in controls :: c.1 != 0) && unconfirmed == []
                  && forall a | a in tagged && a != "" && a in present :: IsManaged(a, identifiers))
            && (d.Orphans? ==>
                  && (forall a ::
                        a in d.orphans <==> a in tagged && a != "" && a in present && !IsManaged(a, identifiers))
                  && (forall a :: a in d.unconfirmed <==> a in unconfirmed))
  {
    var found := WithFate(tagged, Orphan, present, SortedSet(unconfirmed), identifiers);
    SortedKeeps(found);
    if found != [] { assert found[0] in found; }
    if unconfirmed != [] { assert unconfirmed[0] in SortedSet(unconfirmed); }
    if SortedSet(unconfirmed) != [] { assert SortedSet(unconfirmed)[0] in unconfirmed; }
    if Sorted(found) != [] { assert Sorted(found)[0] in found; }
  }

  lemma {:induction false} SilentAre(controls: seq<(string, nat)>, name: string)
    ensures name in SilentAmong(controls) <==> (name, 0) in controls
  {
    if controls == [] {
    } else {
      SilentAre(controls[1..], name);
      assert controls == [controls[0]] + controls[1..];
    }
  }

  /** A refusal names exactly the channels that answered nothing. */
  lemma RefusalNamesTheSilent(tagged: seq<string>, controls: seq<(string, nat)>, identifiers: set<string>,
                              present: set<string>, unconfirmed: seq<string>, name: string)
    ensures var d := DecideSweep(tagged, controls, identifiers, present, unconfirmed);
            d.Refuse? ==> (name in d.silent <==> (name, 0) in controls)
  {
    SilentAre(controls, name);
    SortedKeeps(SilentAmong(controls));
    hide WithFate, SilentAmong, Sorted, SortedSet;
  }

  /** Each orphan is reported as often as it was discovered. */
  lemma {:induction false} FatesKeep(arns: seq<string>, fate: Fate, present: set<string>, unconfirmed: seq<string>,
                                     identifiers: set<string>, a: string)
    ensures multiset(WithFate(arns, fate, present, unconfirmed, identifiers))[a] ==
            if a != "" && FateOf(a, present, unconfirmed, identifiers) == fate then multiset(arns)[a] else 0
  {
    if arns == [] {
    } else {
      hide FateOf;
      FatesKeep(arns[1..], fate, present, unconfirmed, identifiers, a);
      assert arns == [arns[0]] + arns[1..];
    }
  }

  /** The discovered that were neither there nor left unchecked. */
  function Absent(tagged: seq<string>, present: set<string>, unconfirmed: seq<string>): seq<string> {
    if tagged == [] then []
    else
      (if tagged[0] != "" && tagged[0] !in present && tagged[0] !in unconfirmed then [tagged[0]] else [])
      + Absent(tagged[1..], present, unconfirmed)
  }

  lemma {:induction false} NotThereAreAbsent(tagged: seq<string>, present: set<string>, unconfirmed: seq<string>,
                                             identifiers: set<string>)
    ensures WithFate(tagged, NotThere, present, SortedSet(unconfirmed), identifiers) == Absent(tagged, present, unconfirmed)
  {
    hide IsManaged, SortedSet;
    if tagged == [] {
    } else {
      NotThereAreAbsent(tagged[1..], present, unconfirmed, identifiers);
    }
  }

  /** Exactly those are counted as not present. */
  lemma NotPresentExactly(tagged: seq<string>, controls: seq<(string, nat)>, identifiers: set<string>,
                          present: set<string>, unconfirmed: seq<string>)
    ensures var d := DecideSweep(tagged, controls, identifiers, present, unconfirmed);
            !d.Refuse? ==> d.notPresent == |Absent(tagged, present, unconfirmed)|
  {
    NotThereAreAbsent(tagged, present, unconfirmed, identifiers);
    hide WithFate, Absent, Sorted, SortedSet, SilentAmong;
  }

  lemma {:induction false} EachHasOneFate(arns: seq<string>, present: set<string>, unconfirmed: seq<string>,
                                          identifiers: set<string>)
    ensures |WithFate(arns, Orphan, present, unconfirmed, identifiers)|
            + |WithFate(arns, Managed, present, unconfirmed, identifiers)|
            + |WithFate(arns, Unchecked, present, unconfirmed, identifiers)|
                + |WithFate(arns, NotThere, present, unconfirmed, identifiers)|
            == |Discovered(arns)|
  {
    if arns == [] {
    } else {
      EachHasOneFate(arns[1..], present, unconfirmed, identifiers);
    }
  }

  function Discovered(arns: seq<string>): seq<string> {
    if arns == [] then [] else (if arns[0] != "" then [arns[0]] else []) + Discovered(arns[1..])
  }
}
